/**
 * `MQConnector` against an abstract broker: each queue is a sequence of
 * deliveries, a receive takes deliveries from the front, a send appends one,
 * and whether the broker can be reached or a publish fails is read from the
 * broker's oracles.
 */
module MqConnect {
  import opened Wrappers
  import opened Values
  import opened Replay
  import KafkaConnect

  datatype MqType = RabbitMq | ActiveMq | IbmMq

  /** The names in `SUPPORTED_TYPES`. */
  function TypeName(t: MqType): string {
    match t
    case RabbitMq => "rabbitmq"
    case ActiveMq => "activemq"
    case IbmMq => "ibmmq"
  }

  const SupportedTypes: set<string> := {"rabbitmq", "activemq", "ibmmq"}

  /** The supported type with this (lower-cased) name; anything unsupported falls back to RabbitMQ. */
  function TypeNamed(name: string): (t: MqType)
    ensures name in SupportedTypes ==> TypeName(t) == name
    ensures name !in SupportedTypes ==> t == RabbitMq
  {
    if name == "activemq" then ActiveMq else if name == "ibmmq" then IbmMq else RabbitMq
  }

  /** `_get_default_port`. */
  function DefaultPort(t: MqType): int {
    match t
    case RabbitMq => 5672
    case ActiveMq => 61616
    case IbmMq => 1414
  }

  /** The attributes `__init__` keeps; the configured `channel` is not kept, since `channel` is reset to `None`. */
  datatype MqSettings = MqSettings(
    mqType: MqType,
    host: Value,
    port: Value,
    username: Value,
    password: Value,
    sslEnabled: Value,
    sslOptions: Value,
    vhost: Value,
    queueManager: Value)

  /** The `mq_type` text `__init__` lower-cases: the configured one, or `rabbitmq`. */
  function TypeText(fields: map<string, Value>): Value {
    Field(fields, "mq_type", Str("rabbitmq"))
  }

  /**
   * `__init__`: `mq_type` is lower-cased and checked against the supported
   * types, the port defaults by type, the other settings by their defaults;
   * a config that is not a dict, or an `mq_type` that is not a string, raises.
   */
  function SettingsOf(config: Value): (r: Result<MqSettings>)
    ensures r.Success? <==> config.Object? && TypeText(config.fields).Str?
    ensures r.Success? ==>
      var name := Lower(TypeText(config.fields).s);
      && (name in SupportedTypes ==> TypeName(r.value.mqType) == name)
      && (name !in SupportedTypes ==> r.value.mqType == RabbitMq)
    ensures r.Success? && "port" !in config.fields ==> r.value.port == Int(DefaultPort(r.value.mqType))
    ensures r.Success? && "port" in config.fields ==> r.value.port == config.fields["port"]
  {
    if !config.Object? then Failure("AttributeError: object has no attribute 'get'")
    else
      var f := config.fields;
      var name := TypeText(f);
      if !name.Str? then Failure("AttributeError: object has no attribute 'lower'")
      else
        var t := TypeNamed(Lower(name.s));
        Success(MqSettings(
          t,
          Field(f, "host", Str("localhost")),
          Field(f, "port", Int(DefaultPort(t))),
          Field(f, "username", Str("guest")),
          Field(f, "password", Str("guest")),
          Field(f, "ssl_enabled", Bool(false)),
          Field(f, "ssl_options", Object(map[])),
          Field(f, "vhost", Str("/")),
          Field(f, "queue_manager", Str(""))))
  }

  /** The type is read case-insensitively: `RabbitMQ`, `IBMMQ` and their lower-case forms give the same settings. */
  lemma TypeCaseInsensitive(fields: map<string, Value>, s: string)
    ensures SettingsOf(Object(fields["mq_type" := Str(s)])) == SettingsOf(Object(fields["mq_type" := Str(Lower(s))]))
  {
    LowerIdempotent(s);
  }

  /** An empty config is a RabbitMQ connector on `localhost:5672` as `guest`, without SSL, on vhost `/`. */
  lemma DefaultSettings()
    ensures SettingsOf(Object(map[])) == Success(MqSettings(RabbitMq, Str("localhost"), Int(5672), Str("guest"),
      Str("guest"), Bool(false), Object(map[]), Str("/"), Str("")))
  {
    assert Lower("rabbitmq") == "rabbitmq";
  }

  /** Each supported type, named in any case, gets its own default port: 5672, 61616 and 1414. */
  lemma DefaultPortByType(t: MqType, s: string)
    requires Lower(s) == TypeName(t)
    ensures SettingsOf(Object(map["mq_type" := Str(s)])).value.mqType == t
    ensures SettingsOf(Object(map["mq_type" := Str(s)])).value.port ==
      Int(match t case RabbitMq => 5672 case ActiveMq => 61616 case IbmMq => 1414)
  {
  }

  /** An unsupported type falls back to RabbitMQ and its port. */
  lemma UnsupportedTypeIsRabbit(s: string)
    requires Lower(s) !in SupportedTypes
    ensures SettingsOf(Object(map["mq_type" := Str(s)])).value.mqType == RabbitMq
    ensures SettingsOf(Object(map["mq_type" := Str(s)])).value.port == Int(5672)
  {
  }

  /** A message body as the broker holds it: a JSON text, or text that is not JSON. */
  datatype Body = Json(payload: Value) | Raw(text: string)

  datatype Delivery = Delivery(body: Body, properties: map<string, Value>)

  /** `json.loads(body)`, or `{'raw_message': body}` when the body is not JSON. */
  function Decoded(d: Delivery): Value {
    match d.body
    case Json(v) => v
    case Raw(text) => Object(map["raw_message" := Str(text)])
  }

  function DecodedAll(ds: seq<Delivery>): (vs: seq<Value>)
    ensures |vs| == |ds| && forall i :: 0 <= i < |ds| ==> vs[i] == Decoded(ds[i])
  {
    seq(|ds|, i requires 0 <= i < |ds| => Decoded(ds[i]))
  }

  /** What `send_message(queue, m)` without properties puts on a queue, for each message. */
  function Bodies(vs: seq<Value>): (ds: seq<Delivery>)
    ensures |ds| == |vs| && forall i :: 0 <= i < |vs| ==> ds[i] == Delivery(Json(vs[i]), map[])
  {
    seq(|vs|, i requires 0 <= i < |vs| => Delivery(Json(vs[i]), map[]))
  }

  /** A message sent as JSON is received as itself. */
  lemma SentIsReceived(vs: seq<Value>)
    ensures DecodedAll(Bodies(vs)) == vs
  {
  }

  /** The abstract broker the connector talks to. */
  class Broker {
    /** Whether connecting succeeds. */
    const reachable: bool
    /** Whether publishing this value to this queue fails. */
    const publishFails: (string, Value) -> bool
    var queues: map<string, seq<Delivery>>

    constructor (reachable: bool, publishFails: (string, Value) -> bool, queues: map<string, seq<Delivery>>)
      ensures this.reachable == reachable && this.publishFails == publishFails && this.queues == queues
    {
      this.reachable := reachable;
      this.publishFails := publishFails;
      this.queues := queues;
    }
  }

  /** A queue's deliveries; a queue that was never declared holds none. */
  function QueueOf(queues: map<string, seq<Delivery>>, name: string): seq<Delivery> {
    if name in queues then queues[name] else []
  }

  /** The queues after `items` were appended to `name`; a missing queue is created only when `create` holds. */
  function Enqueue(queues: map<string, seq<Delivery>>, name: string, items: seq<Delivery>, create: bool)
    : (r: map<string, seq<Delivery>>)
    ensures name in queues || create ==> name in r && r[name] == QueueOf(queues, name) + items
    ensures name !in queues && !create ==> r == queues
    ensures !create ==> r.Keys == queues.Keys
  {
    if name in queues || create then queues[name := QueueOf(queues, name) + items] else queues
  }

  /** Appending to one queue leaves every other queue as it was. */
  lemma EnqueueOthers(queues: map<string, seq<Delivery>>, name: string, items: seq<Delivery>, create: bool, q: string)
    requires q != name
    ensures var r := Enqueue(queues, name, items, create);
      (q in r <==> q in queues) && QueueOf(r, q) == QueueOf(queues, q)
  {
  }

  /** Appending nothing changes no queue. */
  lemma EnqueueNothing(queues: map<string, seq<Delivery>>, name: string)
    ensures Enqueue(queues, name, [], false) == queues
  {
    if name in queues {
      assert queues[name] + [] == queues[name];
    }
  }

  /** The queues after the first `n` deliveries of `name` were taken. */
  function Drained(queues: map<string, seq<Delivery>>, name: string, n: nat): (r: map<string, seq<Delivery>>)
    requires n <= |QueueOf(queues, name)|
    ensures r.Keys == queues.Keys
    ensures QueueOf(r, name) == QueueOf(queues, name)[n..]
  {
    if name in queues then queues[name := queues[name][n..]] else queues
  }

  /** Taking from one queue leaves every other queue as it was. */
  lemma DrainedOthers(queues: map<string, seq<Delivery>>, name: string, n: nat, q: string)
    requires n <= |QueueOf(queues, name)| && q != name
    ensures QueueOf(Drained(queues, name, n), q) == QueueOf(queues, q)
  {
  }

  /** Appending twice to a queue that is not created is appending the two stretches at once. */
  lemma EnqueueAppend(queues: map<string, seq<Delivery>>, name: string, a: seq<Delivery>, b: seq<Delivery>)
    ensures Enqueue(Enqueue(queues, name, a, false), name, b, false) == Enqueue(queues, name, a + b, false)
  {
    if name in queues {
      assert QueueOf(queues, name) + a + b == QueueOf(queues, name) + (a + b);
    }
  }

  /** Taking more deliveries from the source after sends to another queue. */
  lemma DrainedStep(q0: map<string, seq<Delivery>>, source: string, target: string,
                    done: nat, n: nat, sent: seq<Delivery>)
    requires source != target && done + n <= |QueueOf(q0, source)|
    ensures var q := Enqueue(Drained(q0, source, done), target, sent, false);
      n <= |QueueOf(q, source)| &&
      Drained(q, source, n) == Enqueue(Drained(q0, source, done + n), target, sent, false)
  {
    var q := Enqueue(Drained(q0, source, done), target, sent, false);
    EnqueueOthers(Drained(q0, source, done), target, sent, false, source);
    assert QueueOf(q0, source)[done..][n..] == QueueOf(q0, source)[done + n..];
    var l := Drained(q, source, n);
    var r := Enqueue(Drained(q0, source, done + n), target, sent, false);
    EnqueueOthers(Drained(q0, source, done + n), target, sent, false, source);
    assert l.Keys == r.Keys;
    forall k | k in l
      ensures l[k] == r[k]
    {
      if k != source {
        DrainedOthers(q, source, n, k);
        DrainedOthers(q0, source, done, k);
        DrainedOthers(q0, source, done + n, k);
        if k != target {
          EnqueueOthers(Drained(q0, source, done), target, sent, false, k);
          EnqueueOthers(Drained(q0, source, done + n), target, sent, false, k);
        }
      }
      assert QueueOf(l, k) == QueueOf(r, k);
    }
  }

  const RabbitPropertyKeys: set<string> :=
    {"content_type", "correlation_id", "reply_to", "expiration", "message_id", "priority", "delivery_mode", "headers"}

  /** The message properties RabbitMQ is given: the eight it knows, copied, and nothing else. */
  function RabbitProperties(p: map<string, Value>): (r: map<string, Value>)
    ensures r.Keys == p.Keys * RabbitPropertyKeys
    ensures forall k :: k in r ==> r[k] == p[k]
  {
    map k | k in p.Keys * RabbitPropertyKeys :: p[k]
  }

  /**
   * The properties a sent delivery carries: RabbitMQ's own properties when
   * truthy properties are given, ActiveMQ's headers (`properties or {}`),
   * and none for IBM MQ.
   */
  function PropertiesSent(t: MqType, properties: Option<map<string, Value>>): map<string, Value> {
    match t
    case RabbitMq => if properties.Some? && properties.value != map[] then RabbitProperties(properties.value) else map[]
    case ActiveMq => if properties.Some? then properties.value else map[]
    case IbmMq => map[]
  }

  /** Whether a send succeeds: IBM MQ cannot open a queue that does not exist, and the publish itself may fail. */
  predicate Accepts(broker: Broker, t: MqType, known: bool, queue: string, m: Value) {
    !broker.publishFails(queue, m) && (t == IbmMq ==> known)
  }

  /** `Accepts` on the replay target, as a function on messages. */
  function Accepting(broker: Broker, t: MqType, known: bool, target: string): Value -> bool {
    (m: Value) => Accepts(broker, t, known, target, m)
  }

  /** How many deliveries `range(count)` of fetches takes from a queue holding `available`. */
  function Fetched(count: int, available: nat): (n: nat)
    ensures n <= available
    ensures count <= 0 ==> n == 0
    ensures count >= 0 ==> (n == count || n == available)
  {
    if count <= 0 then 0 else if count < available then count else available
  }

  const ReplayBatchSize: nat := 10

  /** The entries of `p` whose keys are in `keys`. */
  function Restrict(p: map<string, Value>, keys: set<string>): map<string, Value> {
    map k | k in p.Keys * keys :: p[k]
  }

  /** Copying one more property when present restricts to one more key. */
  lemma CopyStep(p: map<string, Value>, props: map<string, Value>, keys: set<string>, key: string)
    requires props == Restrict(p, keys)
    ensures (if key in p then props[key := p[key]] else props) == Restrict(p, keys + {key})
  {
  }

  /** Decoding a stretch of a queue is the stretch of the decoded queue. */
  lemma DecodedSlice(ds: seq<Delivery>, done: nat, n: nat)
    requires done + n <= |ds|
    ensures DecodedAll(ds[done..][..n]) == DecodedAll(ds)[done..done + n]
  {
  }

  /** The source up to `p` messages into a batch: what came before the batch, then the batch's first `p`. */
  lemma PrefixOfBatch<T>(ms: seq<T>, done: nat, n: nat, p: nat, batch: seq<T>)
    requires done + n <= |ms| && batch == ms[done..done + n] && p <= n
    ensures ms[..done + p] == ms[..done] + batch[..p]
  {
    assert forall i :: 0 <= i < done + p ==> ms[..done + p][i] == (ms[..done] + batch[..p])[i];
  }

  /** Sending two stretches puts their deliveries on the queue one after the other. */
  lemma BodiesAppend(a: seq<Value>, b: seq<Value>)
    ensures Bodies(a + b) == Bodies(a) + Bodies(b)
  {
  }

  /** What a prefix of the source hands on is the start of what the whole source hands on. */
  lemma ForwardedPrefix<T>(ms: seq<T>, k: nat, keep: T -> bool, out: T -> T, accepted: T -> bool)
    requires k <= |ms|
    ensures var sent := Forwarded(ms, keep, out, accepted);
      var front := Forwarded(ms[..k], keep, out, accepted);
      |front| <= |sent| && sent[..|front|] == front
  {
    assert ms == ms[..k] + ms[k..];
    ForwardedAppend(ms[..k], ms[k..], keep, out, accepted);
  }

  /**
   * Where a pull round stands once its non-empty batch of `n` messages after
   * the first `done` was forwarded without reaching the limit: `count` sends
   * so far, and no earlier batch reached the limit.
   */
  ghost predicate Consumed(ms: seq<Value>, q0: map<string, seq<Delivery>>, source: string,
                           filter: Option<Value -> bool>, transform: Option<Value -> Value>, limit: Option<int>,
                           acc: Value -> bool, done: nat, n: nat, count: nat)
  {
    && ms == DecodedAll(QueueOf(q0, source))
    && done + n <= |ms| && n == Fetched(ReplayBatchSize, |ms| - done) && 1 <= n
    && count == |Forwarded(ms[..done + n], Keep(filter), Apply(transform), acc)|
    && (Cap(limit).Some? ==> count < Cap(limit).value)
    && (Cap(limit).Some? ==>
          DrawnFrom(ms, Keep(filter), Apply(transform), acc, Cap(limit).value, 0, ReplayBatchSize) ==
          DrawnFrom(ms, Keep(filter), Apply(transform), acc, Cap(limit).value, done, ReplayBatchSize))
  }

  /**
   * Where a pull loop stands on the source side after `done` messages were
   * forwarded and the next `n` drawn as `messages`: `count` sends counted,
   * below the cap, and no earlier batch reached the cap.
   */
  ghost predicate Batched(ms: seq<Value>, q0: map<string, seq<Delivery>>, source: string,
                          filter: Option<Value -> bool>, transform: Option<Value -> Value>, limit: Option<int>,
                          acc: Value -> bool, done: nat, n: nat, messages: seq<Value>, count: nat)
  {
    && ms == DecodedAll(QueueOf(q0, source))
    && done + n <= |ms| && n == Fetched(ReplayBatchSize, |ms| - done)
    && messages == ms[done..done + n]
    && count == |Forwarded(ms[..done], Keep(filter), Apply(transform), acc)|
    && (Cap(limit).Some? ==> count < Cap(limit).value)
    && (Cap(limit).Some? ==>
          DrawnFrom(ms, Keep(filter), Apply(transform), acc, Cap(limit).value, 0, ReplayBatchSize) ==
          DrawnFrom(ms, Keep(filter), Apply(transform), acc, Cap(limit).value, done, ReplayBatchSize))
  }

  /**
   * Where a pull loop stands when a batch reached the limit: the batch after
   * the first `done` messages ended its sends at its `p`-th message with the
   * cap reached, and no earlier batch reached it.
   */
  ghost predicate Stopped(ms: seq<Value>, q0: map<string, seq<Delivery>>, source: string,
                          filter: Option<Value -> bool>, transform: Option<Value -> Value>, limit: Option<int>,
                          acc: Value -> bool, done: nat, n: nat, p: nat, count: nat)
  {
    && ms == DecodedAll(QueueOf(q0, source))
    && done + n <= |ms| && n == Fetched(ReplayBatchSize, |ms| - done) && 1 <= p <= n
    && count == |Forwarded(ms[..done + p], Keep(filter), Apply(transform), acc)|
    && Cap(limit).Some? && count == Cap(limit).value
    && DrawnFrom(ms, Keep(filter), Apply(transform), acc, Cap(limit).value, 0, ReplayBatchSize) ==
       DrawnFrom(ms, Keep(filter), Apply(transform), acc, Cap(limit).value, done, ReplayBatchSize)
  }

  /** The records produced for a batch's first `p` messages extend those produced for the messages before the batch. */
  lemma PublishedThroughBatch(t0: map<string, seq<KafkaConnect.Record>>, topic: string, ms: seq<Value>, done: nat, n: nat,
                              p: nat, batch: seq<Value>, filter: Option<Value -> bool>, transform: Option<Value -> Value>,
                              acc: Value -> bool)
    requires done + n <= |ms| && batch == ms[done..done + n] && p <= n
    ensures var before := Forwarded(ms[..done], Keep(filter), Apply(transform), acc);
      var more := Forwarded(batch[..p], Keep(filter), Apply(transform), acc);
      var sent := Forwarded(ms[..done + p], Keep(filter), Apply(transform), acc);
      && |sent| == |before| + |more|
      && KafkaConnect.Published(KafkaConnect.Published(t0, topic, Unkeyed(before)), topic, Unkeyed(more)) ==
         KafkaConnect.Published(t0, topic, Unkeyed(sent))
  {
    var before := Forwarded(ms[..done], Keep(filter), Apply(transform), acc);
    var more := Forwarded(batch[..p], Keep(filter), Apply(transform), acc);
    PrefixOfBatch(ms, done, n, p, batch);
    ForwardedAppend(ms[..done], batch[..p], Keep(filter), Apply(transform), acc);
    UnkeyedAppend(before, more);
    KafkaConnect.PublishedAppend(t0, topic, Unkeyed(before), Unkeyed(more));
  }

  /**
   * Where a pull loop stands after a batch: as `Consumed` says when the
   * batch was handed on in full without reaching the limit, and as `Stopped`
   * says when the limit was reached at its `p`-th message.
   */
  lemma BatchOutcome(ms: seq<Value>, q0: map<string, seq<Delivery>>, source: string,
                     filter: Option<Value -> bool>, transform: Option<Value -> Value>, limit: Option<int>,
                     acc: Value -> bool, done: nat, n: nat, batch: seq<Value>, count0: nat,
                     stopped: bool, p: nat, count: nat)
    requires Batched(ms, q0, source, filter, transform, limit, acc, done, n, batch, count0) && 1 <= n && p <= n
    requires count == count0 + |Forwarded(batch[..p], Keep(filter), Apply(transform), acc)|
    requires !stopped ==> p == n && (Cap(limit).Some? ==> count < Cap(limit).value)
    requires stopped ==> Cap(limit).Some? && count == Cap(limit).value && 1 <= p
    ensures !stopped ==> Consumed(ms, q0, source, filter, transform, limit, acc, done, n, count)
    ensures stopped ==> Stopped(ms, q0, source, filter, transform, limit, acc, done, n, p, count)
  {
    PrefixOfBatch(ms, done, n, p, batch);
    ForwardedAppend(ms[..done], batch[..p], Keep(filter), Apply(transform), acc);
  }

  /** A batch handed on in full without reaching the limit: the loop goes on with every message so far produced to the topic, which went from `t1` to `t2`. */
  lemma ConsumedToTopic(ms: seq<Value>, q0: map<string, seq<Delivery>>, source: string, topic: string,
                        filter: Option<Value -> bool>, transform: Option<Value -> Value>, limit: Option<int>,
                        acc: Value -> bool, done: nat, n: nat, batch: seq<Value>, count0: nat, count: nat,
                        t0: map<string, seq<KafkaConnect.Record>>, t1: map<string, seq<KafkaConnect.Record>>,
                        t2: map<string, seq<KafkaConnect.Record>>)
    requires Batched(ms, q0, source, filter, transform, limit, acc, done, n, batch, count0) && 1 <= n
    requires t1 == KafkaConnect.Published(t0, topic, Unkeyed(Forwarded(ms[..done], Keep(filter), Apply(transform), acc)))
    requires var sent := Forwarded(batch[..|batch|], Keep(filter), Apply(transform), acc);
      count == count0 + |sent| && t2 == KafkaConnect.Published(t1, topic, Unkeyed(sent))
    requires Cap(limit).Some? ==> count < Cap(limit).value
    ensures Consumed(ms, q0, source, filter, transform, limit, acc, done, n, count)
    ensures t2 == KafkaConnect.Published(t0, topic, Unkeyed(Forwarded(ms[..done + n], Keep(filter), Apply(transform), acc)))
  {
    assert |batch| == n;
    PublishedThroughBatch(t0, topic, ms, done, n, n, batch, filter, transform, acc);
    BatchOutcome(ms, q0, source, filter, transform, limit, acc, done, n, batch, count0, false, n, count);
  }

  /** A batch that reached the limit at its `p`-th message, with the topics going from `t1` to `t2`. */
  lemma StoppedToTopic(ms: seq<Value>, q0: map<string, seq<Delivery>>, source: string, topic: string,
                       filter: Option<Value -> bool>, transform: Option<Value -> Value>, limit: Option<int>,
                       acc: Value -> bool, done: nat, n: nat, batch: seq<Value>, count0: nat, p: nat, count: nat,
                       t0: map<string, seq<KafkaConnect.Record>>, t1: map<string, seq<KafkaConnect.Record>>,
                       t2: map<string, seq<KafkaConnect.Record>>)
    requires Batched(ms, q0, source, filter, transform, limit, acc, done, n, batch, count0) && 1 <= p <= |batch|
    requires t1 == KafkaConnect.Published(t0, topic, Unkeyed(Forwarded(ms[..done], Keep(filter), Apply(transform), acc)))
    requires var sent := Forwarded(batch[..p], Keep(filter), Apply(transform), acc);
      count == count0 + |sent| && t2 == KafkaConnect.Published(t1, topic, Unkeyed(sent))
    requires Cap(limit).Some? && count == Cap(limit).value
    ensures Stopped(ms, q0, source, filter, transform, limit, acc, done, n, p, count)
    ensures t2 == KafkaConnect.Published(t0, topic, Unkeyed(Forwarded(ms[..done + p], Keep(filter), Apply(transform), acc)))
  {
    PublishedThroughBatch(t0, topic, ms, done, n, p, batch, filter, transform, acc);
    BatchOutcome(ms, q0, source, filter, transform, limit, acc, done, n, batch, count0, true, p, count);
  }

  /** A batch that hands on fewer than `c` in all does not stop the replay: it goes on drawing after it. */
  lemma DrawnPastBatch<T>(ms: seq<T>, keep: T -> bool, out: T -> T, accepted: T -> bool, c: nat, done: nat, n: nat)
    requires done + n <= |ms| && n == Fetched(ReplayBatchSize, |ms| - done) && 1 <= n
    requires |Forwarded(ms[..done + n], keep, out, accepted)| < c
    ensures DrawnFrom(ms, keep, out, accepted, c, done, ReplayBatchSize) ==
            DrawnFrom(ms, keep, out, accepted, c, done + n, ReplayBatchSize)
  {
  }

  /** A batch within which the `c`-th send happens is the last one drawn. */
  lemma StopDrawn<T>(ms: seq<T>, keep: T -> bool, out: T -> T, accepted: T -> bool, c: nat, done: nat, n: nat, p: nat)
    requires done + n <= |ms| && n == Fetched(ReplayBatchSize, |ms| - done) && 1 <= p <= n
    requires |Forwarded(ms[..done + p], keep, out, accepted)| >= c
    ensures DrawnFrom(ms, keep, out, accepted, c, done, ReplayBatchSize) == done + n
  {
    ForwardedMonotone(ms, done + p, done + n, keep, out, accepted);
  }

  /** Where a replay stopped by its limit ends: the count is the cap, and the whole batch is drawn. */
  lemma StopOutcome<T>(ms: seq<T>, keep: T -> bool, out: T -> T, accepted: T -> bool, limit: Option<int>,
                       done: nat, n: nat, p: nat, count: nat)
    requires Cap(limit).Some? && count == Cap(limit).value
    requires done + n <= |ms| && n == Fetched(ReplayBatchSize, |ms| - done) && 1 <= p <= n
    requires |Forwarded(ms[..done + p], keep, out, accepted)| == count
    requires DrawnFrom(ms, keep, out, accepted, count, 0, ReplayBatchSize) ==
             DrawnFrom(ms, keep, out, accepted, count, done, ReplayBatchSize)
    ensures var sent := Forwarded(ms, keep, out, accepted);
      && count == Bounded(|sent|, Cap(limit))
      && sent[..count] == Forwarded(ms[..done + p], keep, out, accepted)
      && Drawn(ms, keep, out, accepted, Cap(limit), ReplayBatchSize) == done + n
  {
    StopDrawn(ms, keep, out, accepted, count, done, n, p);
    ForwardedPrefix(ms, done + p, keep, out, accepted);
  }

  /** Where a replay that drained its source ends: everything handed on is counted, and every message drawn. */
  lemma EndOutcome<T>(ms: seq<T>, keep: T -> bool, out: T -> T, accepted: T -> bool, limit: Option<int>, count: nat)
    requires count == |Forwarded(ms, keep, out, accepted)|
    requires Cap(limit).Some? ==> count < Cap(limit).value
    ensures var sent := Forwarded(ms, keep, out, accepted);
      && count == Bounded(|sent|, Cap(limit))
      && sent[..count] == sent
      && Drawn(ms, keep, out, accepted, Cap(limit), ReplayBatchSize) == |ms|
  {
    DrawnAll(ms, keep, out, accepted, Cap(limit), ReplayBatchSize);
  }

  /** Whether producing a value to a topic succeeds, as a function on messages. */
  function Delivering(cluster: KafkaConnect.Cluster, topic: string): Value -> bool {
    (m: Value) => !cluster.deliveryFails(topic, m)
  }

  /** The records `send_message(topic, m)` without a key produces, one per message. */
  function Unkeyed(vs: seq<Value>): (rs: seq<KafkaConnect.Record>)
    ensures |rs| == |vs|
  {
    seq(|vs|, i requires 0 <= i < |vs| => KafkaConnect.Record(None, vs[i]))
  }

  /** Each message becomes one record without a key, in order. */
  lemma UnkeyedAt(vs: seq<Value>, i: nat)
    requires i < |vs|
    ensures Unkeyed(vs)[i] == KafkaConnect.Record(None, vs[i])
  {
  }

  lemma UnkeyedAppend(a: seq<Value>, b: seq<Value>)
    ensures Unkeyed(a + b) == Unkeyed(a) + Unkeyed(b)
  {
  }

  /** Taking from the front of a queue twice is taking both counts at once. */
  lemma DrainedTwice(q0: map<string, seq<Delivery>>, source: string, done: nat, n: nat)
    requires done + n <= |QueueOf(q0, source)|
    ensures n <= |QueueOf(Drained(q0, source, done), source)|
    ensures Drained(Drained(q0, source, done), source, n) == Drained(q0, source, done + n)
  {
    if source in q0 {
      assert q0[source][done..][n..] == q0[source][done + n..];
    }
  }

  class MqConnector {
    const settings: MqSettings
    const mqType: MqType
    /** Whether `connection` is set. */
    var connected: bool
    /** Whether a RabbitMQ `channel` is open. */
    var channelOpen: bool

    /** `__init__`: settings from the config; no connection and no channel, whatever `channel` the config gave. */
    constructor (config: Value)
      requires SettingsOf(config).Success?
      ensures settings == SettingsOf(config).value && mqType == settings.mqType
      ensures !connected && !channelOpen
    {
      settings := SettingsOf(config).value;
      mqType := SettingsOf(config).value.mqType;
      connected := false;
      channelOpen := false;
    }

    /** `connect`: a connection when the broker is reachable, and for RabbitMQ a channel on it. */
    method Connect(broker: Broker) returns (ok: bool)
      modifies this`connected, this`channelOpen
      ensures ok == broker.reachable
      ensures ok ==> connected && channelOpen == (mqType == RabbitMq)
      ensures !ok ==> connected == old(connected) && channelOpen == old(channelOpen)
    {
      if !broker.reachable {
        return false;
      }
      connected := true;
      channelOpen := mqType == RabbitMq;
      return true;
    }

    /** `disconnect`: neither a connection nor a channel afterwards. */
    method Disconnect()
      modifies this`connected, this`channelOpen
      ensures !connected && !channelOpen
    {
      connected := false;
      channelOpen := false;
    }

    /** The `if not self.connection: connect()` guard every operation starts with. */
    method EnsureConnected(broker: Broker) returns (ok: bool)
      modifies this`connected, this`channelOpen
      ensures ok == (old(connected) || broker.reachable) && (ok ==> connected)
      ensures !ok ==> connected == old(connected) && channelOpen == old(channelOpen)
      ensures old(connected) ==> channelOpen == old(channelOpen)
      ensures !old(connected) && ok ==> channelOpen == (mqType == RabbitMq)
    {
      if connected {
        return true;
      }
      ok := Connect(broker);
    }

    /** `if not self.channel: self.channel = self.connection.channel()`, in the RabbitMQ branches. */
    method OpenChannel()
      modifies this`channelOpen
      ensures channelOpen == (old(channelOpen) || mqType == RabbitMq)
    {
      if mqType == RabbitMq && !channelOpen {
        channelOpen := true;
      }
    }

    /**
     * `declare_queue`: RabbitMQ declares the queue (an existing one is kept
     * as it is); ActiveMQ and IBM MQ do nothing and report success.
     */
    method DeclareQueue(broker: Broker, name: string) returns (ok: bool)
      modifies this`connected, this`channelOpen, broker`queues
      ensures ok == (old(connected) || broker.reachable) && (ok ==> connected)
      ensures ok && mqType == RabbitMq ==>
        channelOpen && broker.queues == (if name in old(broker.queues) then old(broker.queues) else old(broker.queues)[name := []])
      ensures !ok || mqType != RabbitMq ==> broker.queues == old(broker.queues)
    {
      ok := EnsureConnected(broker);
      if !ok {
        return;
      }
      if mqType == RabbitMq {
        OpenChannel();
        if name !in broker.queues {
          broker.queues := broker.queues[name := []];
        }
      }
    }

    /** `delete_queue`: only RabbitMQ deletes; ActiveMQ and IBM MQ refuse with `False`. */
    method DeleteQueue(broker: Broker, name: string) returns (ok: bool)
      modifies this`connected, this`channelOpen, broker`queues
      ensures ok == ((old(connected) || broker.reachable) && mqType == RabbitMq)
      ensures ok ==> channelOpen && broker.queues == old(broker.queues) - {name}
      ensures !ok ==> broker.queues == old(broker.queues)
    {
      var connectedNow := EnsureConnected(broker);
      if !connectedNow {
        return false;
      }
      if mqType == RabbitMq {
        OpenChannel();
        broker.queues := broker.queues - {name};
        return true;
      }
      return false;
    }

    /** `_create_rabbitmq_properties`: copy each of the eight known properties that is present. */
    method CreateRabbitProperties(properties: map<string, Value>) returns (props: map<string, Value>)
      ensures props == RabbitProperties(properties)
    {
      props := map[];
      ghost var copied: set<string> := {};
      CopyStep(properties, props, copied, "content_type");
      if "content_type" in properties {
        props := props["content_type" := properties["content_type"]];
      }
      copied := copied + {"content_type"};
      CopyStep(properties, props, copied, "correlation_id");
      if "correlation_id" in properties {
        props := props["correlation_id" := properties["correlation_id"]];
      }
      copied := copied + {"correlation_id"};
      CopyStep(properties, props, copied, "reply_to");
      if "reply_to" in properties {
        props := props["reply_to" := properties["reply_to"]];
      }
      copied := copied + {"reply_to"};
      CopyStep(properties, props, copied, "expiration");
      if "expiration" in properties {
        props := props["expiration" := properties["expiration"]];
      }
      copied := copied + {"expiration"};
      CopyStep(properties, props, copied, "message_id");
      if "message_id" in properties {
        props := props["message_id" := properties["message_id"]];
      }
      copied := copied + {"message_id"};
      CopyStep(properties, props, copied, "priority");
      if "priority" in properties {
        props := props["priority" := properties["priority"]];
      }
      copied := copied + {"priority"};
      CopyStep(properties, props, copied, "delivery_mode");
      if "delivery_mode" in properties {
        props := props["delivery_mode" := properties["delivery_mode"]];
      }
      copied := copied + {"delivery_mode"};
      CopyStep(properties, props, copied, "headers");
      if "headers" in properties {
        props := props["headers" := properties["headers"]];
      }
      copied := copied + {"headers"};
      assert copied == RabbitPropertyKeys;
    }

    /**
     * `send_message`: connect when there is no connection, then publish the
     * message as JSON with the properties for this broker type. RabbitMQ's
     * default exchange drops a message for a queue that does not exist,
     * ActiveMQ creates the queue, and IBM MQ fails to open it.
     */
    method SendMessage(broker: Broker, queue: string, message: Value, properties: Option<map<string, Value>>)
        returns (ok: bool)
      modifies this`connected, this`channelOpen, broker`queues
      ensures !old(connected) && !broker.reachable ==> !ok && broker.queues == old(broker.queues)
      ensures old(connected) || broker.reachable ==>
        && connected
        && ok == Accepts(broker, mqType, queue in old(broker.queues), queue, message)
        && broker.queues == (if ok then Enqueue(old(broker.queues), queue,
                                                [Delivery(Json(message), PropertiesSent(mqType, properties))],
                                                mqType == ActiveMq)
                             else old(broker.queues))
      ensures connected && mqType == RabbitMq ==> channelOpen
      ensures old(connected) && mqType != RabbitMq ==> channelOpen == old(channelOpen)
    {
      ok := EnsureConnected(broker);
      if !ok {
        return;
      }
      var props: map<string, Value> := map[];
      if mqType == RabbitMq {
        OpenChannel();
        if properties.Some? && properties.value != map[] {
          props := CreateRabbitProperties(properties.value);
        }
      } else if mqType == ActiveMq {
        if properties.Some? {
          props := properties.value;
        }
      } else if queue !in broker.queues {
        return false;
      }
      if broker.publishFails(queue, message) {
        return false;
      }
      broker.queues := Enqueue(broker.queues, queue, [Delivery(Json(message), props)], mqType == ActiveMq);
    }

    /**
     * `receive_messages` for RabbitMQ and IBM MQ: a queue that does not exist
     * raises and gives `[]`; otherwise up to `count` deliveries are taken from
     * its front, stopping at the first empty fetch, and decoded in order.
     */
    method ReceiveMessages(broker: Broker, queue: string, count: int) returns (messages: seq<Value>)
      requires mqType != ActiveMq
      modifies this`connected, this`channelOpen, broker`queues
      ensures !old(connected) && !broker.reachable ==> messages == [] && broker.queues == old(broker.queues)
      ensures old(connected) || broker.reachable ==>
        var q := QueueOf(old(broker.queues), queue);
        var n := if queue in old(broker.queues) then Fetched(count, |q|) else 0;
        && connected
        && messages == DecodedAll(q[..n])
        && broker.queues == Drained(old(broker.queues), queue, n)
      ensures connected && mqType == RabbitMq ==> channelOpen
      ensures old(connected) && mqType != RabbitMq ==> channelOpen == old(channelOpen)
    {
      var ok := EnsureConnected(broker);
      if !ok {
        return [];
      }
      OpenChannel();
      if queue !in broker.queues {
        return [];
      }
      ghost var q0 := broker.queues;
      ghost var q := q0[queue];
      messages := [];
      var i := 0;
      while i < count
        modifies broker`queues
        invariant 0 <= i <= |q| && i <= Fetched(count, |q|)
        invariant queue in broker.queues && broker.queues == q0[queue := q[i..]]
        invariant messages == DecodedAll(q[..i])
        invariant i < Fetched(count, |q|) ==> i < count
      {
        var front := broker.queues[queue];
        if front == [] {
          break;
        }
        assert q[..i + 1] == q[..i] + [front[0]];
        messages := messages + [Decoded(front[0])];
        broker.queues := broker.queues[queue := front[1..]];
        assert q[i + 1..] == front[1..];
        i := i + 1;
      }
      assert i == Fetched(count, |q|);
      assert broker.queues == Drained(q0, queue, i);
    }

    /** The loop body of `replay_queue_to_queue` for one message: filter, transform, send, and whether it counts. */
    method ForwardOne(broker: Broker, message: Value, target: string, filter: Option<Value -> bool>,
                      transform: Option<Value -> Value>, ghost q0: map<string, seq<Delivery>>,
                      ghost sent: seq<Value>, ghost known: bool)
        returns (counted: bool)
      requires connected && mqType != ActiveMq && known == (target in broker.queues)
      requires broker.queues == Enqueue(q0, target, Bodies(sent), false)
      requires mqType == RabbitMq ==> channelOpen
      modifies this`connected, this`channelOpen, broker`queues
      ensures channelOpen == old(channelOpen)
      ensures connected && known == (target in broker.queues)
      ensures counted == (Keep(filter)(message) && Accepting(broker, mqType, known, target)(Apply(transform)(message)))
      ensures broker.queues == Enqueue(q0, target, Bodies(sent + (if counted then [Apply(transform)(message)] else [])), false)
    {
      counted := false;
      if Wanted(filter, message) {
        var processed := Processed(transform, message);
        counted := SendMessage(broker, target, processed, None);
        if counted {
          assert Bodies(sent + [processed]) == Bodies(sent) + [Delivery(Json(processed), map[])];
          EnqueueAppend(q0, target, Bodies(sent), [Delivery(Json(processed), map[])]);
        }
      }
      if !counted {
        assert sent + [] == sent;
      }
    }

    /** The `j`-th message of a batch through `ForwardOne`, as a step over the batch's prefixes. */
    method ForwardAt(broker: Broker, batch: seq<Value>, j: nat, target: string, filter: Option<Value -> bool>,
                     transform: Option<Value -> Value>, ghost q0: map<string, seq<Delivery>>, ghost known: bool)
        returns (counted: bool)
      requires j < |batch| && connected && mqType != ActiveMq && known == (target in broker.queues)
      requires broker.queues ==
        Enqueue(q0, target, Bodies(Forwarded(batch[..j], Keep(filter), Apply(transform), Accepting(broker, mqType, known, target))), false)
      requires mqType == RabbitMq ==> channelOpen
      modifies this`connected, this`channelOpen, broker`queues
      ensures channelOpen == old(channelOpen)
      ensures connected && known == (target in broker.queues)
      ensures var sent := Forwarded(batch[..j + 1], Keep(filter), Apply(transform), Accepting(broker, mqType, known, target));
        && |sent| == |Forwarded(batch[..j], Keep(filter), Apply(transform), Accepting(broker, mqType, known, target))|
                     + (if counted then 1 else 0)
        && broker.queues == Enqueue(q0, target, Bodies(sent), false)
    {
      ghost var acc := Accepting(broker, mqType, known, target);
      assert batch[..j + 1] == batch[..j] + [batch[j]];
      ForwardedSnoc(batch[..j], batch[j], Keep(filter), Apply(transform), acc);
      counted := ForwardOne(broker, batch[j], target, filter, transform, q0,
                            Forwarded(batch[..j], Keep(filter), Apply(transform), acc), known);
    }

    /**
     * The inner loop of `replay_queue_to_queue` over one received batch:
     * each message the filter keeps is transformed and sent to the target,
     * and counted when the send succeeds, until the limit is reached; `p` is
     * how many messages were looked at.
     */
    method ForwardMessages(broker: Broker, batch: seq<Value>, target: string, filter: Option<Value -> bool>,
                           transform: Option<Value -> Value>, limit: Option<int>, count0: nat, ghost known: bool)
        returns (count: nat, stopped: bool, ghost p: nat)
      requires connected && mqType != ActiveMq && known == (target in broker.queues)
      requires Cap(limit).Some? ==> count0 < Cap(limit).value
      requires mqType == RabbitMq ==> channelOpen
      modifies this`connected, this`channelOpen, broker`queues
      ensures channelOpen == old(channelOpen)
      ensures connected && p <= |batch|
      ensures var sent := Forwarded(batch[..p], Keep(filter), Apply(transform), Accepting(broker, mqType, known, target));
        count == count0 + |sent| && broker.queues == Enqueue(old(broker.queues), target, Bodies(sent), false)
      ensures !stopped ==> p == |batch| && (Cap(limit).Some? ==> count < Cap(limit).value)
      ensures stopped ==> (Cap(limit).Some? && count == Cap(limit).value && 1 <= p &&
        count0 + |Forwarded(batch[..p - 1], Keep(filter), Apply(transform), Accepting(broker, mqType, known, target))| == count - 1)
    {
      ghost var acc := Accepting(broker, mqType, known, target);
      ghost var q0 := broker.queues;
      count, stopped, p := count0, false, 0;
      assert batch[..0] == [];
      EnqueueNothing(q0, target);
      var j := 0;
      while j < |batch|
        invariant 0 <= j <= |batch| && p == j && connected
        invariant known == (target in broker.queues)
        invariant var sent := Forwarded(batch[..j], Keep(filter), Apply(transform), acc);
          count == count0 + |sent| && broker.queues == Enqueue(q0, target, Bodies(sent), false)
        invariant Cap(limit).Some? ==> count < Cap(limit).value
        invariant channelOpen == old(channelOpen)
      {
        p := j + 1;
        var counted := ForwardAt(broker, batch, j, target, filter, transform, q0, known);
        if counted {
          count := count + 1;
          if LimitReached(limit, count) {
            assert batch[..p - 1] == batch[..j];
            stopped := true;
            return;
          }
        }
        j := j + 1;
      }
    }

    /** One received batch of the replay, continuing from the first `done` messages of the source. */
    method ReplayBatch(broker: Broker, batch: seq<Value>, ghost ms: seq<Value>, ghost done: nat, ghost n: nat,
                       target: string, filter: Option<Value -> bool>, transform: Option<Value -> Value>,
                       limit: Option<int>, count0: nat, ghost known: bool, ghost base: map<string, seq<Delivery>>)
        returns (count: nat, stopped: bool, ghost p: nat)
      requires connected && mqType != ActiveMq && known == (target in broker.queues)
      requires done + n <= |ms| && batch == ms[done..done + n]
      requires var sent := Forwarded(ms[..done], Keep(filter), Apply(transform), Accepting(broker, mqType, known, target));
        count0 == |sent| && broker.queues == Enqueue(base, target, Bodies(sent), false)
      requires Cap(limit).Some? ==> count0 < Cap(limit).value
      requires mqType == RabbitMq ==> channelOpen
      modifies this`connected, this`channelOpen, broker`queues
      ensures channelOpen == old(channelOpen)
      ensures connected && known == (target in broker.queues) && p <= n
      ensures var sent := Forwarded(ms[..done + p], Keep(filter), Apply(transform), Accepting(broker, mqType, known, target));
        count == |sent| && broker.queues == Enqueue(base, target, Bodies(sent), false)
      ensures !stopped ==> p == n && (Cap(limit).Some? ==> count < Cap(limit).value)
      ensures !stopped ==>
        var sent := Forwarded(ms[..done + n], Keep(filter), Apply(transform), Accepting(broker, mqType, known, target));
        count == |sent| && broker.queues == Enqueue(base, target, Bodies(sent), false)
      ensures stopped ==> Cap(limit).Some? && count == Cap(limit).value && 1 <= p
    {
      ghost var acc := Accepting(broker, mqType, known, target);
      ghost var before := Forwarded(ms[..done], Keep(filter), Apply(transform), acc);
      count, stopped, p := ForwardMessages(broker, batch, target, filter, transform, limit, count0, known);
      ghost var more := Forwarded(batch[..p], Keep(filter), Apply(transform), acc);
      PrefixOfBatch(ms, done, n, p, batch);
      ForwardedAppend(ms[..done], batch[..p], Keep(filter), Apply(transform), acc);
      BodiesAppend(before, more);
      EnqueueAppend(base, target, Bodies(before), Bodies(more));
    }

    /**
     * One `receive_messages(source, count=10)` of the replay, after `done`
     * messages were drawn and `sent` forwarded: the next stretch of the
     * source, in order.
     */
    method ReceiveBatch(broker: Broker, source: string, target: string, ghost q0: map<string, seq<Delivery>>,
                        ghost done: nat, ghost sent: seq<Value>)
        returns (messages: seq<Value>, ghost n: nat)
      requires connected && mqType != ActiveMq && source != target
      requires done <= |QueueOf(q0, source)|
      requires broker.queues == Enqueue(Drained(q0, source, done), target, Bodies(sent), false)
      modifies this`connected, this`channelOpen, broker`queues
      ensures channelOpen == (old(channelOpen) || mqType == RabbitMq)
      ensures connected && (target in broker.queues <==> target in old(broker.queues))
      ensures n == Fetched(ReplayBatchSize, |QueueOf(q0, source)| - done) && done + n <= |QueueOf(q0, source)|
      ensures messages == DecodedAll(QueueOf(q0, source))[done..done + n]
      ensures broker.queues == Enqueue(Drained(q0, source, done + n), target, Bodies(sent), false)
    {
      ghost var q := broker.queues;
      messages := ReceiveMessages(broker, source, ReplayBatchSize);
      n := |messages|;
      DecodedSlice(QueueOf(q0, source), done, n);
      DrainedStep(q0, source, target, done, n, Bodies(sent));
    }

    /**
     * The pull loop of `replay_queue_to_queue`, once connected: batches of
     * ten until one is empty, forwarding as the inner loop does; a reached
     * limit returns at once, leaving the rest of its batch drawn but not sent.
     */
    method PullAndForward(broker: Broker, source: string, target: string, filter: Option<Value -> bool>,
                          transform: Option<Value -> Value>, limit: Option<int>) returns (count: nat)
      requires connected && mqType != ActiveMq && source != target
      modifies this`connected, this`channelOpen, broker`queues
      ensures connected && channelOpen == (old(channelOpen) || mqType == RabbitMq)
      ensures var ms := DecodedAll(QueueOf(old(broker.queues), source));
        var acc := Accepting(broker, mqType, target in old(broker.queues), target);
        var sent := Forwarded(ms, Keep(filter), Apply(transform), acc);
        var drawn := Drawn(ms, Keep(filter), Apply(transform), acc, Cap(limit), ReplayBatchSize);
        && count == Bounded(|sent|, Cap(limit))
        && broker.queues == Enqueue(Drained(old(broker.queues), source, drawn), target, Bodies(sent[..count]), false)
    {
      ghost var q0 := broker.queues;
      ghost var ms := DecodedAll(QueueOf(q0, source));
      assert ms[..0] == [];
      EnqueueNothing(Drained(q0, source, 0), target);
      var messages;
      ghost var n;
      messages, n := ReceiveBatch(broker, source, target, q0, 0, []);
      assert ms[..0] == [] && ms[0..n] == ms[..n];
      count := PullLoop(broker, messages, ms, q0, n, source, target, filter, transform, limit, target in q0);
    }

    /**
     * Where the pull loop of `replay_queue_to_queue` stands after `done`
     * messages of the source were forwarded and the next `n` drawn: the
     * source side as `Batched` says, and every counted send on the target.
     */
    ghost predicate Pulling(broker: Broker, ms: seq<Value>, q0: map<string, seq<Delivery>>, source: string,
                            target: string, filter: Option<Value -> bool>, transform: Option<Value -> Value>,
                            limit: Option<int>, known: bool, done: nat, n: nat, messages: seq<Value>, count: nat)
      reads this, broker
    {
      var acc := Accepting(broker, mqType, known, target);
      && connected && mqType != ActiveMq && source != target && known == (target in broker.queues)
      && Batched(ms, q0, source, filter, transform, limit, acc, done, n, messages, count)
      && broker.queues == Enqueue(Drained(q0, source, done + n), target,
                                  Bodies(Forwarded(ms[..done], Keep(filter), Apply(transform), acc)), false)
    }

    /** Where the pull loop ends: the count is the bounded number of sends, and the drawn messages are gone from the source. */
    ghost predicate Pulled(broker: Broker, ms: seq<Value>, q0: map<string, seq<Delivery>>, source: string,
                           target: string, filter: Option<Value -> bool>, transform: Option<Value -> Value>,
                           limit: Option<int>, known: bool, count: nat)
      reads broker
    {
      var acc := Accepting(broker, mqType, known, target);
      var sent := Forwarded(ms, Keep(filter), Apply(transform), acc);
      var drawn := Drawn(ms, Keep(filter), Apply(transform), acc, Cap(limit), ReplayBatchSize);
      && ms == DecodedAll(QueueOf(q0, source))
      && count == Bounded(|sent|, Cap(limit))
      && broker.queues == Enqueue(Drained(q0, source, drawn), target, Bodies(sent[..count]), false)
    }

    /** The loop state after a batch was forwarded without reaching the limit and the next one was drawn. */
    lemma PullingAgain(broker: Broker, ms: seq<Value>, q0: map<string, seq<Delivery>>, source: string,
                       target: string, filter: Option<Value -> bool>, transform: Option<Value -> Value>,
                       limit: Option<int>, known: bool, done: nat, n: nat, n': nat, next: seq<Value>, count: nat)
      requires connected && mqType != ActiveMq && source != target && known == (target in broker.queues)
      requires Consumed(ms, q0, source, filter, transform, limit, Accepting(broker, mqType, known, target), done, n, count)
      requires n' == Fetched(ReplayBatchSize, |QueueOf(q0, source)| - (done + n)) && done + n + n' <= |QueueOf(q0, source)|
      requires next == DecodedAll(QueueOf(q0, source))[done + n..done + n + n']
      requires broker.queues == Enqueue(Drained(q0, source, done + n + n'), target,
        Bodies(Forwarded(ms[..done + n], Keep(filter), Apply(transform), Accepting(broker, mqType, known, target))), false)
      ensures Pulling(broker, ms, q0, source, target, filter, transform, limit, known, done + n, n', next, count)
    {
      if Cap(limit).Some? {
        DrawnPastBatch(ms, Keep(filter), Apply(transform), Accepting(broker, mqType, known, target), Cap(limit).value, done, n);
      }
    }

    /** A batch that reached the limit ends the pull loop. */
    lemma PullStopped(broker: Broker, ms: seq<Value>, q0: map<string, seq<Delivery>>, source: string,
                      target: string, filter: Option<Value -> bool>, transform: Option<Value -> Value>,
                      limit: Option<int>, known: bool, done: nat, n: nat, p: nat, count: nat)
      requires ms == DecodedAll(QueueOf(q0, source))
      requires done + n <= |ms| && n == Fetched(ReplayBatchSize, |ms| - done) && 1 <= p <= n
      requires var sent := Forwarded(ms[..done + p], Keep(filter), Apply(transform), Accepting(broker, mqType, known, target));
        count == |sent| && broker.queues == Enqueue(Drained(q0, source, done + n), target, Bodies(sent), false)
      requires Cap(limit).Some? && count == Cap(limit).value
      requires var acc := Accepting(broker, mqType, known, target);
        DrawnFrom(ms, Keep(filter), Apply(transform), acc, count, 0, ReplayBatchSize) ==
        DrawnFrom(ms, Keep(filter), Apply(transform), acc, count, done, ReplayBatchSize)
      ensures Pulled(broker, ms, q0, source, target, filter, transform, limit, known, count)
    {
      StopOutcome(ms, Keep(filter), Apply(transform), Accepting(broker, mqType, known, target), limit, done, n, p, count);
    }

    /** An empty batch ends the pull loop with the source drained. */
    lemma PullEnd(broker: Broker, ms: seq<Value>, q0: map<string, seq<Delivery>>, source: string,
                  target: string, filter: Option<Value -> bool>, transform: Option<Value -> Value>,
                  limit: Option<int>, known: bool, done: nat, n: nat, count: nat)
      requires Pulling(broker, ms, q0, source, target, filter, transform, limit, known, done, n, [], count)
      ensures Pulled(broker, ms, q0, source, target, filter, transform, limit, known, count)
    {
      assert ms[..done] == ms;
      EndOutcome(ms, Keep(filter), Apply(transform), Accepting(broker, mqType, known, target), limit, count);
    }

    /** One round of the pull loop: forward a non-empty batch, then, unless the limit stopped it, draw the next. */
    method PullRound(broker: Broker, messages: seq<Value>, ghost ms: seq<Value>, ghost q0: map<string, seq<Delivery>>,
                     ghost done: nat, ghost n: nat, source: string, target: string, filter: Option<Value -> bool>,
                     transform: Option<Value -> Value>, limit: Option<int>, count0: nat, ghost known: bool)
        returns (next: seq<Value>, count: nat, stopped: bool, ghost done': nat, ghost n': nat)
      requires connected && mqType != ActiveMq && source != target && known == (target in broker.queues)
      requires ms == DecodedAll(QueueOf(q0, source))
      requires done + n <= |ms| && n == Fetched(ReplayBatchSize, |ms| - done) && 1 <= n
      requires messages == ms[done..done + n]
      requires var sent := Forwarded(ms[..done], Keep(filter), Apply(transform), Accepting(broker, mqType, known, target));
        count0 == |sent| && broker.queues == Enqueue(Drained(q0, source, done + n), target, Bodies(sent), false)
      requires Cap(limit).Some? ==> count0 < Cap(limit).value
      requires Cap(limit).Some? ==>
        var acc := Accepting(broker, mqType, known, target);
        DrawnFrom(ms, Keep(filter), Apply(transform), acc, Cap(limit).value, 0, ReplayBatchSize) ==
        DrawnFrom(ms, Keep(filter), Apply(transform), acc, Cap(limit).value, done, ReplayBatchSize)
      requires mqType == RabbitMq ==> channelOpen
      modifies this`connected, this`channelOpen, broker`queues
      ensures connected
      ensures channelOpen == old(channelOpen)
      ensures !stopped ==> done < done' && Pulling(broker, ms, q0, source, target, filter, transform, limit, known, done', n', next, count)
      ensures stopped ==> Pulled(broker, ms, q0, source, target, filter, transform, limit, known, count)
    {
      ghost var p;
      next, done', n' := messages, done, n;
      count, stopped, p := ReplayBatch(broker, messages, ms, done, n, target, filter, transform, limit, count0, known,
                                       Drained(q0, source, done + n));
      if stopped {
        PullStopped(broker, ms, q0, source, target, filter, transform, limit, known, done, n, p, count);
        return;
      }
      next, n' := DrawNext(broker, ms, q0, done, n, source, target, filter, transform, limit, count, known);
      done' := done + n;
    }

    /** After a batch was forwarded without reaching the limit, draw the next one. */
    method DrawNext(broker: Broker, ghost ms: seq<Value>, ghost q0: map<string, seq<Delivery>>, ghost done: nat,
                    ghost n: nat, source: string, target: string, ghost filter: Option<Value -> bool>,
                    ghost transform: Option<Value -> Value>, ghost limit: Option<int>, ghost count: nat, ghost known: bool)
        returns (next: seq<Value>, ghost n': nat)
      requires connected && mqType != ActiveMq && source != target && known == (target in broker.queues)
      requires Consumed(ms, q0, source, filter, transform, limit, Accepting(broker, mqType, known, target), done, n, count)
      requires broker.queues == Enqueue(Drained(q0, source, done + n), target,
        Bodies(Forwarded(ms[..done + n], Keep(filter), Apply(transform), Accepting(broker, mqType, known, target))), false)
      requires mqType == RabbitMq ==> channelOpen
      modifies this`connected, this`channelOpen, broker`queues
      ensures channelOpen == old(channelOpen)
      ensures Pulling(broker, ms, q0, source, target, filter, transform, limit, known, done + n, n', next, count)
    {
      ghost var sent := Forwarded(ms[..done + n], Keep(filter), Apply(transform), Accepting(broker, mqType, known, target));
      next, n' := ReceiveBatch(broker, source, target, q0, done + n, sent);
      assert known == (target in broker.queues) && connected;
      PullingAgain(broker, ms, q0, source, target, filter, transform, limit, known, done, n, n', next, count);
    }

    /** The pull loop from its first batch on. */
    method PullLoop(broker: Broker, messages0: seq<Value>, ghost ms: seq<Value>, ghost q0: map<string, seq<Delivery>>,
                    ghost n0: nat, source: string, target: string, filter: Option<Value -> bool>,
                    transform: Option<Value -> Value>, limit: Option<int>, ghost known: bool)
        returns (count: nat)
      requires Pulling(broker, ms, q0, source, target, filter, transform, limit, known, 0, n0, messages0, 0)
      requires mqType == RabbitMq ==> channelOpen
      modifies this`connected, this`channelOpen, broker`queues
      ensures connected
      ensures channelOpen == old(channelOpen)
      ensures Pulled(broker, ms, q0, source, target, filter, transform, limit, known, count)
    {
      ghost var done: nat := 0;
      ghost var n := n0;
      ghost var open0 := channelOpen;
      var messages := messages0;
      count := 0;
      while messages != []
        invariant Pulling(broker, ms, q0, source, target, filter, transform, limit, known, done, n, messages, count)
        invariant channelOpen == open0
        decreases |ms| - done
      {
        var stopped;
        messages, count, stopped, done, n := PullRound(broker, messages, ms, q0, done, n, source, target, filter,
                                                       transform, limit, count, known);
        if stopped {
          return;
        }
      }
      PullEnd(broker, ms, q0, source, target, filter, transform, limit, known, done, n, count);
    }

    /**
     * `replay_queue_to_queue`: connect when there is no connection (returning
     * 0 when that fails), then pull and forward; the count is the number of
     * successful sends, never more than a truthy limit.
     */
    method ReplayQueueToQueue(broker: Broker, source: string, target: string, filter: Option<Value -> bool>,
                              transform: Option<Value -> Value>, limit: Option<int>) returns (count: nat)
      requires mqType != ActiveMq && source != target
      modifies this`connected, this`channelOpen, broker`queues
      ensures !old(connected) && !broker.reachable ==> count == 0 && broker.queues == old(broker.queues)
      ensures old(connected) || broker.reachable ==>
        var ms := DecodedAll(QueueOf(old(broker.queues), source));
        var acc := Accepting(broker, mqType, target in old(broker.queues), target);
        var sent := Forwarded(ms, Keep(filter), Apply(transform), acc);
        var drawn := Drawn(ms, Keep(filter), Apply(transform), acc, Cap(limit), ReplayBatchSize);
        && count == Bounded(|sent|, Cap(limit))
        && broker.queues == Enqueue(Drained(old(broker.queues), source, drawn), target, Bodies(sent[..count]), false)
      ensures !old(connected) && !broker.reachable ==> !connected && channelOpen == old(channelOpen)
      ensures old(connected) || broker.reachable ==>
        connected && channelOpen == (mqType == RabbitMq || (old(connected) && old(channelOpen)))
    {
      var ok := EnsureConnected(broker);
      if !ok {
        return 0;
      }
      count := PullAndForward(broker, source, target, filter, transform, limit);
    }

    /** The loop body of `replay_queue_to_kafka` for one message: filter, transform, produce without a key, and whether it counts. */
    method ForwardOneToTopic(kafka: KafkaConnect.KafkaConnector, cluster: KafkaConnect.Cluster, message: Value,
                             topic: string, filter: Option<Value -> bool>, transform: Option<Value -> Value>,
                             ghost t0: map<string, seq<KafkaConnect.Record>>, ghost sent: seq<Value>)
        returns (counted: bool)
      requires kafka.hasProducer
      requires cluster.topics == KafkaConnect.Published(t0, topic, Unkeyed(sent))
      modifies kafka, cluster`topics
      ensures unchanged(kafka)
      ensures counted == (Keep(filter)(message) && Delivering(cluster, topic)(Apply(transform)(message)))
      ensures cluster.topics ==
        KafkaConnect.Published(t0, topic, Unkeyed(sent + (if counted then [Apply(transform)(message)] else [])))
    {
      counted := false;
      if Wanted(filter, message) {
        var processed := Processed(transform, message);
        counted := kafka.SendMessage(cluster, topic, processed, None);
        if counted {
          UnkeyedAppend(sent, [processed]);
          assert Unkeyed([processed]) == [KafkaConnect.Record(None, processed)];
          KafkaConnect.PublishedAppend(t0, topic, Unkeyed(sent), [KafkaConnect.Record(None, processed)]);
        }
      }
      if !counted {
        assert sent + [] == sent;
      }
    }

    /** The `j`-th message of a batch through `ForwardOneToTopic`, as a step over the batch's prefixes. */
    method ForwardAtToTopic(kafka: KafkaConnect.KafkaConnector, cluster: KafkaConnect.Cluster, batch: seq<Value>, j: nat,
                            topic: string, filter: Option<Value -> bool>, transform: Option<Value -> Value>,
                            ghost t0: map<string, seq<KafkaConnect.Record>>)
        returns (counted: bool)
      requires j < |batch| && kafka.hasProducer
      requires cluster.topics ==
        KafkaConnect.Published(t0, topic, Unkeyed(Forwarded(batch[..j], Keep(filter), Apply(transform), Delivering(cluster, topic))))
      modifies kafka, cluster`topics
      ensures unchanged(kafka)
      ensures var sent := Forwarded(batch[..j + 1], Keep(filter), Apply(transform), Delivering(cluster, topic));
        && |sent| == |Forwarded(batch[..j], Keep(filter), Apply(transform), Delivering(cluster, topic))| + (if counted then 1 else 0)
        && cluster.topics == KafkaConnect.Published(t0, topic, Unkeyed(sent))
    {
      ghost var acc := Delivering(cluster, topic);
      assert batch[..j + 1] == batch[..j] + [batch[j]];
      ForwardedSnoc(batch[..j], batch[j], Keep(filter), Apply(transform), acc);
      counted := ForwardOneToTopic(kafka, cluster, batch[j], topic, filter, transform, t0,
                                   Forwarded(batch[..j], Keep(filter), Apply(transform), acc));
    }

    /**
     * The inner loop of `replay_queue_to_kafka` over one received batch: as
     * for a target queue, with each kept message produced to the topic.
     */
    method ForwardMessagesToTopic(kafka: KafkaConnect.KafkaConnector, cluster: KafkaConnect.Cluster, batch: seq<Value>,
                                  topic: string, filter: Option<Value -> bool>, transform: Option<Value -> Value>,
                                  limit: Option<int>, count0: nat)
        returns (count: nat, stopped: bool, ghost p: nat)
      requires kafka.hasProducer
      requires Cap(limit).Some? ==> count0 < Cap(limit).value
      modifies kafka, cluster`topics
      ensures unchanged(kafka) && p <= |batch|
      ensures var sent := Forwarded(batch[..p], Keep(filter), Apply(transform), Delivering(cluster, topic));
        count == count0 + |sent| && cluster.topics == KafkaConnect.Published(old(cluster.topics), topic, Unkeyed(sent))
      ensures !stopped ==> p == |batch| && (Cap(limit).Some? ==> count < Cap(limit).value)
      ensures stopped ==> Cap(limit).Some? && count == Cap(limit).value && 1 <= p
    {
      ghost var acc := Delivering(cluster, topic);
      ghost var t0 := cluster.topics;
      count, stopped, p := count0, false, 0;
      assert batch[..0] == [];
      var j := 0;
      while j < |batch|
        invariant 0 <= j <= |batch| && p == j && kafka.hasProducer
        invariant unchanged(kafka)
        invariant var sent := Forwarded(batch[..j], Keep(filter), Apply(transform), acc);
          count == count0 + |sent| && cluster.topics == KafkaConnect.Published(t0, topic, Unkeyed(sent))
        invariant Cap(limit).Some? ==> count < Cap(limit).value
      {
        p := j + 1;
        var counted := ForwardAtToTopic(kafka, cluster, batch, j, topic, filter, transform, t0);
        if counted {
          count := count + 1;
          if LimitReached(limit, count) {
            stopped := true;
            return;
          }
        }
        j := j + 1;
      }
    }

    /** One received batch of the replay to Kafka, continuing from the first `done` messages of the source. */
    method ReplayBatchToTopic(kafka: KafkaConnect.KafkaConnector, cluster: KafkaConnect.Cluster, batch: seq<Value>,
                              ghost ms: seq<Value>, ghost q0: map<string, seq<Delivery>>, ghost source: string,
                              ghost done: nat, ghost n: nat, topic: string,
                              filter: Option<Value -> bool>, transform: Option<Value -> Value>, limit: Option<int>,
                              count0: nat, ghost t0: map<string, seq<KafkaConnect.Record>>)
        returns (count: nat, stopped: bool, ghost p: nat)
      requires kafka.hasProducer && 1 <= n
      requires Batched(ms, q0, source, filter, transform, limit, Delivering(cluster, topic), done, n, batch, count0)
      requires cluster.topics ==
        KafkaConnect.Published(t0, topic, Unkeyed(Forwarded(ms[..done], Keep(filter), Apply(transform), Delivering(cluster, topic))))
      modifies kafka, cluster`topics
      ensures unchanged(kafka)
      ensures !stopped ==> Consumed(ms, q0, source, filter, transform, limit, Delivering(cluster, topic), done, n, count)
      ensures !stopped ==>
        cluster.topics == KafkaConnect.Published(t0, topic, Unkeyed(Forwarded(ms[..done + n], Keep(filter), Apply(transform), Delivering(cluster, topic))))
      ensures stopped ==> Stopped(ms, q0, source, filter, transform, limit, Delivering(cluster, topic), done, n, p, count)
      ensures stopped ==>
        cluster.topics == KafkaConnect.Published(t0, topic, Unkeyed(Forwarded(ms[..done + p], Keep(filter), Apply(transform), Delivering(cluster, topic))))
    {
      ghost var t1 := cluster.topics;
      count, stopped, p := ForwardMessagesToTopic(kafka, cluster, batch, topic, filter, transform, limit, count0);
      if stopped {
        StoppedToTopic(ms, q0, source, topic, filter, transform, limit, Delivering(cluster, topic), done, n, batch,
                       count0, p, count, t0, t1, cluster.topics);
      } else {
        ConsumedToTopic(ms, q0, source, topic, filter, transform, limit, Delivering(cluster, topic), done, n, batch,
                        count0, count, t0, t1, cluster.topics);
      }
    }

    /** One `receive_messages(source, count=10)` of the replay to Kafka, after `done` messages were drawn. */
    method DrawBatch(broker: Broker, source: string, ghost q0: map<string, seq<Delivery>>, ghost done: nat)
        returns (messages: seq<Value>, ghost n: nat)
      requires connected && mqType != ActiveMq
      requires done <= |QueueOf(q0, source)|
      requires broker.queues == Drained(q0, source, done)
      modifies this`connected, this`channelOpen, broker`queues
      ensures channelOpen == (old(channelOpen) || mqType == RabbitMq)
      ensures connected
      ensures n == Fetched(ReplayBatchSize, |QueueOf(q0, source)| - done) && done + n <= |QueueOf(q0, source)|
      ensures messages == DecodedAll(QueueOf(q0, source))[done..done + n]
      ensures broker.queues == Drained(q0, source, done + n)
    {
      messages := ReceiveMessages(broker, source, ReplayBatchSize);
      n := |messages|;
      DecodedSlice(QueueOf(q0, source), done, n);
      DrainedTwice(q0, source, done, n);
    }

    /**
     * Where the pull loop of `replay_queue_to_kafka` stands after `done`
     * messages of the source were forwarded and the next `n` drawn: the
     * source side as `Batched` says, and every counted send on the topic.
     */
    ghost predicate PullingToTopic(broker: Broker, cluster: KafkaConnect.Cluster,
                                   ms: seq<Value>, q0: map<string, seq<Delivery>>,
                                   t0: map<string, seq<KafkaConnect.Record>>, source: string, topic: string,
                                   filter: Option<Value -> bool>, transform: Option<Value -> Value>, limit: Option<int>,
                                   done: nat, n: nat, messages: seq<Value>, count: nat)
      reads this, broker, cluster
    {
      var acc := Delivering(cluster, topic);
      && connected && mqType != ActiveMq
      && Batched(ms, q0, source, filter, transform, limit, acc, done, n, messages, count)
      && broker.queues == Drained(q0, source, done + n)
      && cluster.topics == KafkaConnect.Published(t0, topic, Unkeyed(Forwarded(ms[..done], Keep(filter), Apply(transform), acc)))
    }

    /** Where the pull loop of `replay_queue_to_kafka` ends: the bounded count, the drawn messages gone, their records produced. */
    ghost predicate PulledToTopic(broker: Broker, cluster: KafkaConnect.Cluster, ms: seq<Value>,
                                  q0: map<string, seq<Delivery>>, t0: map<string, seq<KafkaConnect.Record>>,
                                  source: string, topic: string, filter: Option<Value -> bool>,
                                  transform: Option<Value -> Value>, limit: Option<int>, count: nat)
      reads broker, cluster
    {
      var acc := Delivering(cluster, topic);
      var sent := Forwarded(ms, Keep(filter), Apply(transform), acc);
      var drawn := Drawn(ms, Keep(filter), Apply(transform), acc, Cap(limit), ReplayBatchSize);
      && ms == DecodedAll(QueueOf(q0, source))
      && count == Bounded(|sent|, Cap(limit))
      && broker.queues == Drained(q0, source, drawn)
      && cluster.topics == KafkaConnect.Published(t0, topic, Unkeyed(sent[..count]))
    }

    /** The loop state after a batch was produced without reaching the limit and the next one was drawn. */
    lemma PullingToTopicAgain(broker: Broker, cluster: KafkaConnect.Cluster,
                              ms: seq<Value>, q0: map<string, seq<Delivery>>,
                              t0: map<string, seq<KafkaConnect.Record>>, source: string, topic: string,
                              filter: Option<Value -> bool>, transform: Option<Value -> Value>, limit: Option<int>,
                              done: nat, n: nat, done': nat, n': nat, next: seq<Value>, count: nat)
      requires connected && mqType != ActiveMq
      requires Consumed(ms, q0, source, filter, transform, limit, Delivering(cluster, topic), done, n, count)
      requires done' == done + n
      requires n' == Fetched(ReplayBatchSize, |QueueOf(q0, source)| - done') && done' + n' <= |QueueOf(q0, source)|
      requires next == DecodedAll(QueueOf(q0, source))[done'..done' + n']
      requires broker.queues == Drained(q0, source, done' + n')
      requires cluster.topics ==
        KafkaConnect.Published(t0, topic, Unkeyed(Forwarded(ms[..done'], Keep(filter), Apply(transform), Delivering(cluster, topic))))
      ensures PullingToTopic(broker, cluster, ms, q0, t0, source, topic, filter, transform, limit, done', n', next, count)
    {
      if Cap(limit).Some? {
        DrawnPastBatch(ms, Keep(filter), Apply(transform), Delivering(cluster, topic), Cap(limit).value, done, n);
      }
    }

    /** A batch that reached the limit ends the pull loop of `replay_queue_to_kafka`. */
    lemma PullToTopicStopped(broker: Broker, cluster: KafkaConnect.Cluster, ms: seq<Value>,
                             q0: map<string, seq<Delivery>>, t0: map<string, seq<KafkaConnect.Record>>,
                             source: string, topic: string, filter: Option<Value -> bool>,
                             transform: Option<Value -> Value>, limit: Option<int>, done: nat, n: nat, p: nat, count: nat)
      requires ms == DecodedAll(QueueOf(q0, source))
      requires done + n <= |ms| && n == Fetched(ReplayBatchSize, |ms| - done) && 1 <= p <= n
      requires count == |Forwarded(ms[..done + p], Keep(filter), Apply(transform), Delivering(cluster, topic))|
      requires Cap(limit).Some? && count == Cap(limit).value
      requires var acc := Delivering(cluster, topic);
        DrawnFrom(ms, Keep(filter), Apply(transform), acc, count, 0, ReplayBatchSize) ==
        DrawnFrom(ms, Keep(filter), Apply(transform), acc, count, done, ReplayBatchSize)
      requires broker.queues == Drained(q0, source, done + n)
      requires cluster.topics ==
        KafkaConnect.Published(t0, topic, Unkeyed(Forwarded(ms[..done + p], Keep(filter), Apply(transform), Delivering(cluster, topic))))
      ensures PulledToTopic(broker, cluster, ms, q0, t0, source, topic, filter, transform, limit, count)
    {
      StopOutcome(ms, Keep(filter), Apply(transform), Delivering(cluster, topic), limit, done, n, p, count);
    }

    /** An empty batch ends the pull loop of `replay_queue_to_kafka` with the source drained. */
    lemma PullToTopicEnd(broker: Broker, cluster: KafkaConnect.Cluster,
                         ms: seq<Value>, q0: map<string, seq<Delivery>>, t0: map<string, seq<KafkaConnect.Record>>,
                         source: string, topic: string, filter: Option<Value -> bool>,
                         transform: Option<Value -> Value>, limit: Option<int>, done: nat, n: nat, count: nat)
      requires PullingToTopic(broker, cluster, ms, q0, t0, source, topic, filter, transform, limit, done, n, [], count)
      ensures PulledToTopic(broker, cluster, ms, q0, t0, source, topic, filter, transform, limit, count)
    {
      assert ms[..done] == ms;
      EndOutcome(ms, Keep(filter), Apply(transform), Delivering(cluster, topic), limit, count);
    }

    /** The loop state of `replay_queue_to_kafka` once its first batch was drawn and nothing was produced yet. */
    lemma StartPullingToTopic(broker: Broker, cluster: KafkaConnect.Cluster, ms: seq<Value>,
                              q0: map<string, seq<Delivery>>, t0: map<string, seq<KafkaConnect.Record>>,
                              source: string, topic: string, filter: Option<Value -> bool>,
                              transform: Option<Value -> Value>, limit: Option<int>, n: nat, messages: seq<Value>)
      requires connected && mqType != ActiveMq
      requires ms == DecodedAll(QueueOf(q0, source))
      requires n == Fetched(ReplayBatchSize, |QueueOf(q0, source)| - 0) && 0 + n <= |QueueOf(q0, source)|
      requires messages == ms[0..0 + n]
      requires broker.queues == Drained(q0, source, 0 + n)
      requires cluster.topics == t0
      ensures PullingToTopic(broker, cluster, ms, q0, t0, source, topic, filter, transform, limit, 0, n, messages, 0)
    {
      assert ms[..0] == [];
      assert Unkeyed([]) == [];
    }

    /** One round of the pull loop of `replay_queue_to_kafka`. */
    method PullRoundToTopic(broker: Broker, kafka: KafkaConnect.KafkaConnector, cluster: KafkaConnect.Cluster,
                            messages: seq<Value>, ghost ms: seq<Value>, ghost q0: map<string, seq<Delivery>>,
                            ghost t0: map<string, seq<KafkaConnect.Record>>, ghost done: nat, ghost n: nat,
                            source: string, topic: string, filter: Option<Value -> bool>,
                            transform: Option<Value -> Value>, limit: Option<int>, count0: nat)
        returns (next: seq<Value>, count: nat, stopped: bool, ghost done': nat, ghost n': nat)
      requires kafka.hasProducer && 1 <= n
      requires PullingToTopic(broker, cluster, ms, q0, t0, source, topic, filter, transform, limit, done, n, messages, count0)
      requires mqType == RabbitMq ==> channelOpen
      modifies this`connected, this`channelOpen, broker`queues, kafka, cluster`topics
      ensures connected && channelOpen == old(channelOpen)
      ensures unchanged(kafka)
      ensures !stopped ==> done < done'
      ensures !stopped ==>
        PullingToTopic(broker, cluster, ms, q0, t0, source, topic, filter, transform, limit, done', n', next, count)
      ensures stopped ==> PulledToTopic(broker, cluster, ms, q0, t0, source, topic, filter, transform, limit, count)
    {
      ghost var p;
      next, done', n' := messages, done, n;
      count, stopped, p := ReplayBatchToTopic(kafka, cluster, messages, ms, q0, source, done, n, topic, filter, transform,
                                              limit, count0, t0);
      if stopped {
        PullToTopicStopped(broker, cluster, ms, q0, t0, source, topic, filter, transform, limit, done, n, p, count);
        return;
      }
      next, done', n' := DrawNextForTopic(broker, cluster, ms, q0, t0, done, n, source, topic, filter, transform, limit, count);
    }

    /** After a batch was produced without reaching the limit, draw the next one. */
    method DrawNextForTopic(broker: Broker, cluster: KafkaConnect.Cluster,
                            ghost ms: seq<Value>, ghost q0: map<string, seq<Delivery>>,
                            ghost t0: map<string, seq<KafkaConnect.Record>>, ghost done: nat, ghost n: nat,
                            source: string, ghost topic: string, ghost filter: Option<Value -> bool>,
                            ghost transform: Option<Value -> Value>, ghost limit: Option<int>, ghost count: nat)
        returns (next: seq<Value>, ghost done': nat, ghost n': nat)
      requires connected && mqType != ActiveMq
      requires Consumed(ms, q0, source, filter, transform, limit, Delivering(cluster, topic), done, n, count)
      requires broker.queues == Drained(q0, source, done + n)
      requires cluster.topics ==
        KafkaConnect.Published(t0, topic, Unkeyed(Forwarded(ms[..done + n], Keep(filter), Apply(transform), Delivering(cluster, topic))))
      requires mqType == RabbitMq ==> channelOpen
      modifies this`connected, this`channelOpen, broker`queues
      ensures connected && channelOpen == old(channelOpen)
      ensures done' == done + n
      ensures PullingToTopic(broker, cluster, ms, q0, t0, source, topic, filter, transform, limit, done', n', next, count)
    {
      done' := done + n;
      next, n' := DrawBatch(broker, source, q0, done');
      PullingToTopicAgain(broker, cluster, ms, q0, t0, source, topic, filter, transform, limit, done, n, done', n', next, count);
    }

    /** The pull loop of `replay_queue_to_kafka` from its first batch on. */
    method PullLoopToTopic(broker: Broker, kafka: KafkaConnect.KafkaConnector, cluster: KafkaConnect.Cluster,
                           messages0: seq<Value>, ghost ms: seq<Value>, ghost q0: map<string, seq<Delivery>>,
                           ghost t0: map<string, seq<KafkaConnect.Record>>, ghost n0: nat, source: string,
                           topic: string, filter: Option<Value -> bool>, transform: Option<Value -> Value>,
                           limit: Option<int>)
        returns (count: nat)
      requires kafka.hasProducer
      requires PullingToTopic(broker, cluster, ms, q0, t0, source, topic, filter, transform, limit, 0, n0, messages0, 0)
      requires mqType == RabbitMq ==> channelOpen
      modifies this`connected, this`channelOpen, broker`queues, kafka, cluster`topics
      ensures connected && channelOpen == old(channelOpen) && unchanged(kafka)
      ensures PulledToTopic(broker, cluster, ms, q0, t0, source, topic, filter, transform, limit, count)
    {
      ghost var done: nat := 0;
      ghost var n := n0;
      ghost var open0 := channelOpen;
      var messages := messages0;
      count := 0;
      while messages != []
        invariant kafka.hasProducer && unchanged(kafka)
        invariant channelOpen == open0
        invariant PullingToTopic(broker, cluster, ms, q0, t0, source, topic, filter, transform, limit, done, n, messages, count)
        decreases |ms| - done
      {
        var stopped;
        messages, count, stopped, done, n := PullRoundToTopic(broker, kafka, cluster, messages, ms, q0, t0, done, n,
                                                              source, topic, filter, transform, limit, count);
        if stopped {
          return;
        }
      }
      PullToTopicEnd(broker, cluster, ms, q0, t0, source, topic, filter, transform, limit, done, n, count);
    }

    /**
     * `replay_queue_to_kafka`: connect to the broker when there is no
     * connection and the Kafka connector when it has no producer (returning
     * 0 when either fails), then pull batches of ten and produce each kept,
     * transformed message to the topic without a key, as
     * `replay_queue_to_queue` does for a target queue.
     */
    method ReplayQueueToKafka(broker: Broker, source: string, topic: string, kafka: KafkaConnect.KafkaConnector,
                              cluster: KafkaConnect.Cluster, filter: Option<Value -> bool>,
                              transform: Option<Value -> Value>, limit: Option<int>) returns (count: nat)
      requires mqType != ActiveMq
      modifies this`connected, this`channelOpen, broker`queues, kafka, cluster`topics
      ensures !(old(connected) || broker.reachable) || !(old(kafka.hasProducer) || cluster.reachable) ==>
        count == 0 && broker.queues == old(broker.queues) && cluster.topics == old(cluster.topics)
      ensures (old(connected) || broker.reachable) && (old(kafka.hasProducer) || cluster.reachable) ==>
        var ms := DecodedAll(QueueOf(old(broker.queues), source));
        var acc := Delivering(cluster, topic);
        var sent := Forwarded(ms, Keep(filter), Apply(transform), acc);
        var drawn := Drawn(ms, Keep(filter), Apply(transform), acc, Cap(limit), ReplayBatchSize);
        && count == Bounded(|sent|, Cap(limit))
        && broker.queues == Drained(old(broker.queues), source, drawn)
        && cluster.topics == KafkaConnect.Published(old(cluster.topics), topic, Unkeyed(sent[..count]))
      ensures !old(connected) && !broker.reachable ==> !connected && channelOpen == old(channelOpen) && unchanged(kafka)
      ensures (old(connected) || broker.reachable) && !(old(kafka.hasProducer) || cluster.reachable) ==>
        && connected && channelOpen == (if old(connected) then old(channelOpen) else mqType == RabbitMq)
        && unchanged(kafka)
      ensures (old(connected) || broker.reachable) && (old(kafka.hasProducer) || cluster.reachable) ==>
        && connected && channelOpen == (mqType == RabbitMq || (old(connected) && old(channelOpen)))
        && (old(kafka.hasProducer) ==> unchanged(kafka))
        && (!old(kafka.hasProducer) ==> kafka.JustConnected())
    {
      var ok := EnsureConnected(broker);
      if !ok {
        return 0;
      }
      if !kafka.hasProducer {
        var kafkaConnected := kafka.Connect(cluster);
        if !kafkaConnected {
          return 0;
        }
      }
      count := PullAndProduce(broker, kafka, cluster, source, topic, filter, transform, limit);
    }

    /** The pull loop of `replay_queue_to_kafka`, once both sides are connected. */
    method PullAndProduce(broker: Broker, kafka: KafkaConnect.KafkaConnector, cluster: KafkaConnect.Cluster,
                          source: string, topic: string, filter: Option<Value -> bool>,
                          transform: Option<Value -> Value>, limit: Option<int>) returns (count: nat)
      requires connected && mqType != ActiveMq && kafka.hasProducer
      modifies this`connected, this`channelOpen, broker`queues, kafka, cluster`topics
      ensures connected && channelOpen == (old(channelOpen) || mqType == RabbitMq)
      ensures unchanged(kafka)
      ensures var ms := DecodedAll(QueueOf(old(broker.queues), source));
        var acc := Delivering(cluster, topic);
        var sent := Forwarded(ms, Keep(filter), Apply(transform), acc);
        var drawn := Drawn(ms, Keep(filter), Apply(transform), acc, Cap(limit), ReplayBatchSize);
        && count == Bounded(|sent|, Cap(limit))
        && broker.queues == Drained(old(broker.queues), source, drawn)
        && cluster.topics == KafkaConnect.Published(old(cluster.topics), topic, Unkeyed(sent[..count]))
    {
      ghost var ms, q0, t0, n;
      var messages;
      messages, ms, q0, t0, n := FirstBatchToTopic(broker, cluster, source, topic, filter, transform, limit);
      count := PullLoopToTopic(broker, kafka, cluster, messages, ms, q0, t0, n, source, topic, filter, transform, limit);
    }

    /** The first batch `replay_queue_to_kafka` draws, with nothing produced yet. */
    method FirstBatchToTopic(broker: Broker, cluster: KafkaConnect.Cluster, source: string, ghost topic: string,
                             ghost filter: Option<Value -> bool>, ghost transform: Option<Value -> Value>,
                             ghost limit: Option<int>)
        returns (messages: seq<Value>, ghost ms: seq<Value>, ghost q0: map<string, seq<Delivery>>,
                 ghost t0: map<string, seq<KafkaConnect.Record>>, ghost n: nat)
      requires connected && mqType != ActiveMq
      modifies this`connected, this`channelOpen, broker`queues
      ensures connected && channelOpen == (old(channelOpen) || mqType == RabbitMq)
      ensures q0 == old(broker.queues) && t0 == cluster.topics && ms == DecodedAll(QueueOf(q0, source))
      ensures PullingToTopic(broker, cluster, ms, q0, t0, source, topic, filter, transform, limit, 0, n, messages, 0)
    {
      q0 := broker.queues;
      t0 := cluster.topics;
      ms := DecodedAll(QueueOf(q0, source));
      assert Drained(q0, source, 0) == q0 by {
        if source in q0 {
          assert q0[source][0..] == q0[source];
        }
      }
      messages, n := DrawBatch(broker, source, q0, 0);
      StartPullingToTopic(broker, cluster, ms, q0, t0, source, topic, filter, transform, limit, n, messages);
    }
  }
}
