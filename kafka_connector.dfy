/**
 * `KafkaConnector` against an abstract cluster: each topic is one
 * append-only log of records, the consumer keeps one position in the topic
 * it is subscribed to, and whether the cluster can be reached or a delivery
 * fails is read from the cluster's oracles.
 */
module KafkaConnect {
  import opened Wrappers
  import opened Values
  import opened Replay

  const DefaultBootstrapServers: string := "localhost:9092"
  const DefaultGroupId: string := "default-group"
  const DefaultOffsetReset: string := "earliest"

  /** The attributes `__init__` reads from the config; absent security settings are `None`. */
  datatype KafkaSettings = KafkaSettings(
    bootstrapServers: Value,
    groupId: Value,
    autoOffsetReset: Value,
    securityProtocol: Value,
    saslMechanism: Value,
    saslUsername: Value,
    saslPassword: Value)

  /** `__init__`: every setting is `config.get` with its default; a config that is not a dict raises. */
  function SettingsOf(config: Value): (r: Result<KafkaSettings>)
    ensures r.Success? <==> config.Object?
    ensures r.Success? && "group_id" in config.fields ==> r.value.groupId == config.fields["group_id"]
    ensures r.Success? && "security_protocol" !in config.fields ==> r.value.securityProtocol == Null
  {
    if !config.Object? then Failure("AttributeError: object has no attribute 'get'")
    else
      var f := config.fields;
      Success(KafkaSettings(
        Field(f, "bootstrap_servers", Str(DefaultBootstrapServers)),
        Field(f, "group_id", Str(DefaultGroupId)),
        Field(f, "auto_offset_reset", Str(DefaultOffsetReset)),
        Field(f, "security_protocol", Null),
        Field(f, "sasl_mechanism", Null),
        Field(f, "sasl_plain_username", Null),
        Field(f, "sasl_plain_password", Null)))
  }

  /** An empty config connects to `localhost:9092` as `default-group` from the earliest offset, without security. */
  lemma DefaultSettings()
    ensures SettingsOf(Object(map[])) ==
      Success(KafkaSettings(Str("localhost:9092"), Str("default-group"), Str("earliest"), Null, Null, Null, Null))
  {
  }

  /** The keys the security settings add to a client config: each only when set, the SASL pair only together. */
  function SecurityKeys(s: KafkaSettings): set<string> {
    (if Truthy(s.securityProtocol) then {"security_protocol"} else {})
    + (if Truthy(s.saslMechanism) then {"sasl_mechanism"} else {})
    + (if Truthy(s.saslUsername) && Truthy(s.saslPassword) then {"sasl_plain_username", "sasl_plain_password"} else {})
  }

  /** A SASL username without a password (or the other way round) adds neither. */
  lemma SaslNeedsBoth(s: KafkaSettings)
    ensures "sasl_plain_username" in SecurityKeys(s) <==> Truthy(s.saslUsername) && Truthy(s.saslPassword)
    ensures "sasl_plain_password" in SecurityKeys(s) <==> Truthy(s.saslUsername) && Truthy(s.saslPassword)
    ensures "security_protocol" in SecurityKeys(s) <==> Truthy(s.securityProtocol)
    ensures "sasl_mechanism" in SecurityKeys(s) <==> Truthy(s.saslMechanism)
  {
  }

  /** One record of a topic; the key stays the bytes the producer was given. */
  datatype Record = Record(key: Option<string>, value: Value)

  /** The abstract cluster the connector talks to. */
  class Cluster {
    /** Whether creating a producer and a consumer succeeds. */
    const reachable: bool
    /** Whether the delivery of this value to this topic fails. */
    const deliveryFails: (string, Value) -> bool
    var topics: map<string, seq<Record>>

    constructor (reachable: bool, deliveryFails: (string, Value) -> bool, topics: map<string, seq<Record>>)
      ensures this.reachable == reachable && this.deliveryFails == deliveryFails && this.topics == topics
    {
      this.reachable := reachable;
      this.deliveryFails := deliveryFails;
      this.topics := topics;
    }
  }

  /** A topic's log; a topic nobody produced to is empty. */
  function LogOf(topics: map<string, seq<Record>>, topic: string): seq<Record> {
    if topic in topics then topics[topic] else []
  }

  /** The topics after `records` reached the end of `topic`; producing to an unknown topic creates it. */
  function Published(topics: map<string, seq<Record>>, topic: string, records: seq<Record>): (r: map<string, seq<Record>>)
    ensures LogOf(r, topic) == LogOf(topics, topic) + records
  {
    if records == [] then
      assert LogOf(topics, topic) + records == LogOf(topics, topic);
      topics
    else topics[topic := LogOf(topics, topic) + records]
  }

  /** Producing to one topic leaves every other topic's log as it was. */
  lemma PublishedOthers(topics: map<string, seq<Record>>, topic: string, records: seq<Record>, t: string)
    requires t != topic
    ensures LogOf(Published(topics, topic, records), t) == LogOf(topics, t)
  {
  }

  /** Producing two stretches to a topic one after the other is producing them at once. */
  lemma PublishedAppend(topics: map<string, seq<Record>>, topic: string, a: seq<Record>, b: seq<Record>)
    ensures Published(Published(topics, topic, a), topic, b) == Published(topics, topic, a + b)
  {
    if a == [] {
      assert a + b == b;
    } else if b == [] {
      assert a + b == a;
    } else {
      assert LogOf(topics, topic) + a + b == LogOf(topics, topic) + (a + b);
    }
  }

  /** The records of `records` whose delivery to `topic` does not fail, in order. */
  function Delivered(cluster: Cluster, topic: string, records: seq<Record>): seq<Record> {
    Forwarded(records, (r: Record) => true, (r: Record) => r, (r: Record) => !cluster.deliveryFails(topic, r.value))
  }

  /** `key.encode('utf-8') if key else None`: an empty key is sent as no key. */
  function EncodedKey(key: Option<string>): (r: Option<string>)
    ensures r.Some? <==> key.Some? && key.value != ""
    ensures r.Some? ==> r == key
  {
    if key.Some? && key.value != "" then key else None
  }

  /** The replay filter on a record's value. */
  function KeepRecord(filter: Option<Value -> bool>): Record -> bool {
    (r: Record) => Wanted(filter, r.value)
  }

  /** The replay transform on a record's value; the key is passed through. */
  function MapRecord(transform: Option<Value -> Value>): Record -> Record {
    (r: Record) => r.(value := Processed(transform, r.value))
  }

  /** Every replay send is counted. */
  function AllSends(): Record -> bool {
    (r: Record) => true
  }

  /** The values of records, in order. */
  function ValuesOf(rs: seq<Record>): (vs: seq<Value>)
    ensures |vs| == |rs| && forall i :: 0 <= i < |rs| ==> vs[i] == rs[i].value
  {
    seq(|rs|, i requires 0 <= i < |rs| => rs[i].value)
  }

  /** The partitions of a poll result, concatenated in partition order. */
  function Flatten(batches: seq<seq<Record>>): seq<Record> {
    if batches == [] then [] else Flatten(batches[..|batches| - 1]) + batches[|batches| - 1]
  }

  /**
   * Where the consumer starts in a topic it was not subscribed to: the end
   * for `latest` and for its legacy spelling `largest`, the beginning for
   * `earliest`, `smallest` and, as a choice of this model, any other value
   * (the client does not accept those).
   */
  function ResetPosition(s: KafkaSettings, log: seq<Record>): nat {
    if s.autoOffsetReset == Str("latest") || s.autoOffsetReset == Str("largest") then |log| else 0
  }

  function Min(a: nat, b: nat): nat {
    if a <= b then a else b
  }

  /** How many records each poll of the replay asks for. */
  const ReplayPollRecords: nat := 100

  class KafkaConnector {
    const settings: KafkaSettings
    var hasProducer: bool
    var hasConsumer: bool
    /** The configs `connect` built the current producer and consumer from. */
    var producerConfig: map<string, Value>
    var consumerConfig: map<string, Value>
    /** The consumer's subscription and its position in that topic. */
    var subscription: Option<string>
    var position: nat

    /** `__init__`: settings from the config; no producer and no consumer yet. */
    constructor (config: Value)
      requires config.Object?
      ensures settings == SettingsOf(config).value
      ensures !hasProducer && !hasConsumer && subscription == None && position == 0
    {
      settings := SettingsOf(config).value;
      hasProducer := false;
      hasConsumer := false;
      producerConfig := map[];
      consumerConfig := map[];
      subscription := None;
      position := 0;
    }

    /** The conditional security entries `connect` adds to both client configs. */
    method AddSecurity(base: map<string, Value>) returns (config: map<string, Value>)
      requires base.Keys !! {"security_protocol", "sasl_mechanism", "sasl_plain_username", "sasl_plain_password"}
      ensures config.Keys == base.Keys + SecurityKeys(settings)
      ensures forall k :: k in base ==> config[k] == base[k]
      ensures "security_protocol" in config ==> config["security_protocol"] == settings.securityProtocol
      ensures "sasl_mechanism" in config ==> config["sasl_mechanism"] == settings.saslMechanism
      ensures "sasl_plain_username" in config ==> config["sasl_plain_username"] == settings.saslUsername
      ensures "sasl_plain_password" in config ==> config["sasl_plain_password"] == settings.saslPassword
    {
      config := base;
      if Truthy(settings.securityProtocol) {
        config := config["security_protocol" := settings.securityProtocol];
      }
      if Truthy(settings.saslMechanism) {
        config := config["sasl_mechanism" := settings.saslMechanism];
      }
      if Truthy(settings.saslUsername) && Truthy(settings.saslPassword) {
        config := config["sasl_plain_username" := settings.saslUsername];
        config := config["sasl_plain_password" := settings.saslPassword];
      }
    }

    /** The producer config: the servers, then the security entries that are set. */
    method ProducerConfig() returns (config: map<string, Value>)
      ensures config.Keys == {"bootstrap_servers"} + SecurityKeys(settings)
      ensures config["bootstrap_servers"] == settings.bootstrapServers
      ensures "security_protocol" in config ==> config["security_protocol"] == settings.securityProtocol
      ensures "sasl_plain_password" in config ==> config["sasl_plain_password"] == settings.saslPassword
    {
      config := AddSecurity(map["bootstrap_servers" := settings.bootstrapServers]);
    }

    /** The consumer config: servers, group and offset reset, then the security entries that are set. */
    method ConsumerConfig() returns (config: map<string, Value>)
      ensures config.Keys == {"bootstrap_servers", "group_id", "auto_offset_reset"} + SecurityKeys(settings)
      ensures config["bootstrap_servers"] == settings.bootstrapServers
      ensures config["group_id"] == settings.groupId && config["auto_offset_reset"] == settings.autoOffsetReset
      ensures "security_protocol" in config ==> config["security_protocol"] == settings.securityProtocol
      ensures "sasl_plain_password" in config ==> config["sasl_plain_password"] == settings.saslPassword
    {
      config := AddSecurity(map["bootstrap_servers" := settings.bootstrapServers,
                                "group_id" := settings.groupId,
                                "auto_offset_reset" := settings.autoOffsetReset]);
    }

    /** The client configs hold what `connect` builds from the settings. */
    predicate Configured()
      reads this
    {
      && producerConfig.Keys == {"bootstrap_servers"} + SecurityKeys(settings)
      && producerConfig["bootstrap_servers"] == settings.bootstrapServers
      && consumerConfig.Keys == {"bootstrap_servers", "group_id", "auto_offset_reset"} + SecurityKeys(settings)
      && consumerConfig["bootstrap_servers"] == settings.bootstrapServers
      && consumerConfig["group_id"] == settings.groupId
      && consumerConfig["auto_offset_reset"] == settings.autoOffsetReset
    }

    /** The state right after a successful `connect`: both clients new, the consumer not subscribed. */
    predicate JustConnected()
      reads this
    {
      hasProducer && hasConsumer && subscription == None && position == 0 && Configured()
    }

    /** `connect`: a new producer and a new consumer (not subscribed yet), or nothing when the cluster is unreachable. */
    method Connect(cluster: Cluster) returns (ok: bool)
      modifies this
      ensures ok == cluster.reachable
      ensures ok ==> JustConnected()
      ensures !ok ==> unchanged(this)
    {
      if !cluster.reachable {
        return false;
      }
      producerConfig := ProducerConfig();
      hasProducer := true;
      consumerConfig := ConsumerConfig();
      hasConsumer := true;
      subscription := None;
      position := 0;
      return true;
    }

    /**
     * `send_message`: connect first when there is no producer, then send and
     * wait for the delivery; only a delivered record is appended, and `True`
     * is returned exactly then.
     */
    method SendMessage(cluster: Cluster, topic: string, message: Value, key: Option<string>) returns (ok: bool)
      modifies this, cluster`topics
      ensures !old(hasProducer) && !cluster.reachable ==> !ok && cluster.topics == old(cluster.topics)
      ensures old(hasProducer) || cluster.reachable ==>
        && ok == !cluster.deliveryFails(topic, message)
        && cluster.topics == (if ok then Published(old(cluster.topics), topic, [Record(EncodedKey(key), message)])
                              else old(cluster.topics))
      ensures hasProducer == (old(hasProducer) || cluster.reachable)
      ensures old(hasProducer) || !cluster.reachable ==> unchanged(this)
      ensures !old(hasProducer) && cluster.reachable ==> JustConnected()
    {
      if !hasProducer {
        var connected := Connect(cluster);
        if !connected {
          return false;
        }
      }
      var encodedKey := EncodedKey(key);
      if cluster.deliveryFails(topic, message) {
        return false;
      }
      cluster.topics := Published(cluster.topics, topic, [Record(encodedKey, message)]);
      return true;
    }

    /** `subscribe([topic])`: a new topic starts at the reset position, the current one keeps its position. */
    method Subscribe(cluster: Cluster, topic: string)
      modifies this`subscription, this`position
      ensures subscription == Some(topic)
      ensures position == (if old(subscription) == Some(topic) then old(position)
                           else ResetPosition(settings, LogOf(cluster.topics, topic)))
    {
      if subscription != Some(topic) {
        position := ResetPosition(settings, LogOf(cluster.topics, topic));
      }
      subscription := Some(topic);
    }

    /**
     * `consumer.poll(max_records=…)` on the subscribed topic: up to
     * `maxRecords` records after the position, as one partition, and the
     * position moves past them; nothing left gives an empty result.
     */
    method Poll(cluster: Cluster, maxRecords: nat) returns (batches: seq<seq<Record>>)
      requires subscription.Some?
      modifies this`position
      ensures var log := LogOf(cluster.topics, subscription.value);
        var start := Min(old(position), |log|);
        && position == Min(start + maxRecords, |log|)
        && Flatten(batches) == log[start..position]
        && (batches == [] <==> start == position)
    {
      var log := LogOf(cluster.topics, subscription.value);
      var start := Min(position, |log|);
      position := Min(start + maxRecords, |log|);
      if start == position {
        batches := [];
      } else {
        batches := [log[start..position]];
        assert Flatten(batches) == Flatten([]) + log[start..position];
      }
    }

    /** The record values of a poll result, partition by partition. */
    method CollectValues(batches: seq<seq<Record>>) returns (messages: seq<Value>)
      ensures messages == ValuesOf(Flatten(batches))
    {
      messages := [];
      var i := 0;
      while i < |batches|
        invariant 0 <= i <= |batches|
        invariant messages == ValuesOf(Flatten(batches[..i]))
      {
        var j := 0;
        while j < |batches[i]|
          invariant 0 <= j <= |batches[i]|
          invariant messages == ValuesOf(Flatten(batches[..i]) + batches[i][..j])
        {
          assert (Flatten(batches[..i]) + batches[i][..j + 1]) ==
                 (Flatten(batches[..i]) + batches[i][..j]) + [batches[i][j]];
          messages := messages + [batches[i][j].value];
          j := j + 1;
        }
        assert batches[i][..j] == batches[i];
        assert batches[..i + 1][..i] == batches[..i];
        i := i + 1;
      }
      assert batches[..i] == batches;
    }

    /**
     * `consume_messages`: connect when there is no consumer, subscribe, poll
     * once and return the polled values flattened; an unreachable cluster
     * or a non-positive `max_records` gives `[]`.
     */
    method ConsumeMessages(cluster: Cluster, topic: string, timeoutMs: int, maxRecords: int) returns (messages: seq<Value>)
      modifies this
      ensures !old(hasConsumer) && !cluster.reachable ==> messages == [] && unchanged(this)
      ensures maxRecords < 1 ==> messages == []
      ensures old(hasConsumer) || cluster.reachable ==>
        var log := LogOf(cluster.topics, topic);
        var from := if old(hasConsumer) && old(subscription) == Some(topic) then old(position)
                    else ResetPosition(settings, log);
        var start := Min(from, |log|);
        && hasConsumer && subscription == Some(topic)
        && position == (if maxRecords < 1 then from else Min(start + maxRecords, |log|))
        && (maxRecords >= 1 ==> messages == ValuesOf(log[start..Min(start + maxRecords, |log|)]))
      ensures old(hasConsumer) ==>
        hasProducer == old(hasProducer) && producerConfig == old(producerConfig) && consumerConfig == old(consumerConfig)
      ensures !old(hasConsumer) && cluster.reachable ==> hasProducer && Configured()
    {
      if !hasConsumer {
        var connected := Connect(cluster);
        if !connected {
          return [];
        }
      }
      Subscribe(cluster, topic);
      if maxRecords < 1 {
        return [];
      }
      var batches := Poll(cluster, maxRecords);
      messages := CollectValues(batches);
    }

    /**
     * The poll loop of `replay_topic_to_topic`, from the beginning of the
     * subscribed topic: the records sent (still unflushed) and their count,
     * up to the point where a truthy `limit` is reached.
     */
    method PollAndForward(cluster: Cluster, filter: Option<Value -> bool>, transform: Option<Value -> Value>,
                          limit: Option<int>) returns (unsent: seq<Record>, count: nat)
      requires subscription.Some? && position == 0
      modifies this`position
      ensures var log := LogOf(cluster.topics, subscription.value);
        var sent := Forwarded(log, KeepRecord(filter), MapRecord(transform), AllSends());
        && count == Bounded(|sent|, Cap(limit)) && unsent == sent[..count]
        && position == Drawn(log, KeepRecord(filter), MapRecord(transform), AllSends(), Cap(limit), ReplayPollRecords)
    {
      ghost var log := LogOf(cluster.topics, subscription.value);
      ghost var sent := Forwarded(log, KeepRecord(filter), MapRecord(transform), AllSends());
      count := 0;
      unsent := [];
      ghost var done := 0;
      ghost var drawn := Drawn(log, KeepRecord(filter), MapRecord(transform), AllSends(), Cap(limit), ReplayPollRecords);
      var batches := Poll(cluster, ReplayPollRecords);
      while batches != []
        invariant done <= position <= |log| && Flatten(batches) == log[done..position]
        invariant batches == [] <==> done == position
        invariant batches == [] ==> position == |log|
        invariant position == Min(done + ReplayPollRecords, |log|)
        invariant unsent == Forwarded(log[..done], KeepRecord(filter), MapRecord(transform), AllSends())
        invariant count == |unsent|
        invariant Cap(limit).Some? ==> count < Cap(limit).value
        invariant Cap(limit).Some? ==>
          DrawnFrom(log, KeepRecord(filter), MapRecord(transform), AllSends(), Cap(limit).value, done, ReplayPollRecords) == drawn
        decreases |log| - done
      {
        var stopped;
        ghost var before := done;
        unsent, count, stopped, done := ForwardPolled(batches, log, done, position, filter, transform, limit, unsent, count);
        if stopped {
          ReachedCap(log, done, KeepRecord(filter), MapRecord(transform), count);
          DrawnInPoll(log, KeepRecord(filter), MapRecord(transform), count, before, position, done);
          return;
        }
        if Cap(limit).Some? {
          DrawnPastPoll(log, KeepRecord(filter), MapRecord(transform), Cap(limit).value, before, position);
        }
        batches := Poll(cluster, ReplayPollRecords);
      }
      assert log[..done] == log;
    }

    /** `producer.flush()`: the records sent since the last flush reach the topic, except those whose delivery fails. */
    method Flush(cluster: Cluster, topic: string, unsent: seq<Record>)
      modifies cluster`topics
      ensures cluster.topics == Published(old(cluster.topics), topic, Delivered(cluster, topic, unsent))
    {
      cluster.topics := Published(cluster.topics, topic, Delivered(cluster, topic, unsent));
    }

    /**
     * `replay_topic_to_topic`: connect when a client is missing, subscribe
     * to the source and seek to its beginning, then poll batches of 100 until
     * a poll is empty, sending every record the filter keeps (transformed,
     * with its key) and counting each send; a truthy `limit` flushes and
     * returns once the count reaches it, otherwise one flush follows the loop.
     */
    method ReplayTopicToTopic(cluster: Cluster, source: string, target: string,
                              filter: Option<Value -> bool>, transform: Option<Value -> Value>,
                              limit: Option<int>) returns (count: nat)
      requires source != target
      modifies this, cluster`topics
      ensures !(old(hasConsumer) && old(hasProducer)) && !cluster.reachable ==>
        count == 0 && cluster.topics == old(cluster.topics) && unchanged(this)
      ensures (old(hasConsumer) && old(hasProducer)) || cluster.reachable ==>
        var log := LogOf(old(cluster.topics), source);
        var sent := Forwarded(log, KeepRecord(filter), MapRecord(transform), AllSends());
        && count == Bounded(|sent|, Cap(limit))
        && cluster.topics == Published(old(cluster.topics), target, Delivered(cluster, target, sent[..count]))
        && hasProducer && hasConsumer && subscription == Some(source)
        && position == Drawn(log, KeepRecord(filter), MapRecord(transform), AllSends(), Cap(limit), ReplayPollRecords)
      ensures old(hasConsumer) && old(hasProducer) ==>
        producerConfig == old(producerConfig) && consumerConfig == old(consumerConfig)
      ensures !(old(hasConsumer) && old(hasProducer)) && cluster.reachable ==> Configured()
    {
      if !hasConsumer || !hasProducer {
        var connected := Connect(cluster);
        if !connected {
          return 0;
        }
      }
      count := ReplayFromStart(cluster, source, target, filter, transform, limit);
    }

    /** The body of `replay_topic_to_topic` once both clients exist: subscribe, seek to the beginning, poll, flush. */
    method ReplayFromStart(cluster: Cluster, source: string, target: string,
                           filter: Option<Value -> bool>, transform: Option<Value -> Value>,
                           limit: Option<int>) returns (count: nat)
      requires source != target
      modifies this`subscription, this`position, cluster`topics
      ensures var log := LogOf(old(cluster.topics), source);
        var sent := Forwarded(log, KeepRecord(filter), MapRecord(transform), AllSends());
        && count == Bounded(|sent|, Cap(limit))
        && cluster.topics == Published(old(cluster.topics), target, Delivered(cluster, target, sent[..count]))
        && subscription == Some(source)
        && position == Drawn(log, KeepRecord(filter), MapRecord(transform), AllSends(), Cap(limit), ReplayPollRecords)
    {
      subscription := Some(source);
      position := 0;
      var unsent;
      unsent, count := PollAndForward(cluster, filter, transform, limit);
      Flush(cluster, target, unsent);
    }
  }

  /**
   * The replay's loop over the records of one partition: each record the
   * filter keeps is sent (collected in `unsent`, with its key and the
   * transformed value) and counted, until the limit is reached; `p` is how
   * many records were looked at.
   */
  method ForwardRecords(records: seq<Record>, filter: Option<Value -> bool>, transform: Option<Value -> Value>,
                        limit: Option<int>, unsent0: seq<Record>, count0: nat)
      returns (unsent: seq<Record>, count: nat, stopped: bool, ghost p: nat)
    requires count0 == |unsent0| && (Cap(limit).Some? ==> count0 < Cap(limit).value)
    ensures p <= |records| && count == |unsent|
    ensures unsent == unsent0 + Forwarded(records[..p], KeepRecord(filter), MapRecord(transform), AllSends())
    ensures !stopped ==> p == |records| && (Cap(limit).Some? ==> count < Cap(limit).value)
    ensures stopped ==> Cap(limit).Some? && count == Cap(limit).value
  {
    unsent, count, stopped, p := unsent0, count0, false, 0;
    var j := 0;
    while j < |records|
      invariant 0 <= j <= |records| && p == j && count == |unsent|
      invariant unsent == unsent0 + Forwarded(records[..j], KeepRecord(filter), MapRecord(transform), AllSends())
      invariant Cap(limit).Some? ==> count < Cap(limit).value
    {
      var record := records[j];
      assert records[..j + 1] == records[..j] + [record];
      ForwardedSnoc(records[..j], record, KeepRecord(filter), MapRecord(transform), AllSends());
      p := j + 1;
      if Wanted(filter, record.value) {
        var message := Processed(transform, record.value);
        unsent := unsent + [Record(record.key, message)];
        count := count + 1;
        if LimitReached(limit, count) {
          stopped := true;
          return;
        }
      }
      j := j + 1;
    }
  }

  /** The replay's loop over the partitions of one poll result, with the same stop rule. */
  method ForwardBatches(batches: seq<seq<Record>>, filter: Option<Value -> bool>, transform: Option<Value -> Value>,
                        limit: Option<int>, unsent0: seq<Record>, count0: nat)
      returns (unsent: seq<Record>, count: nat, stopped: bool, ghost p: nat)
    requires count0 == |unsent0| && (Cap(limit).Some? ==> count0 < Cap(limit).value)
    ensures p <= |Flatten(batches)| && count == |unsent|
    ensures unsent == unsent0 + Forwarded(Flatten(batches)[..p], KeepRecord(filter), MapRecord(transform), AllSends())
    ensures !stopped ==> p == |Flatten(batches)| && (Cap(limit).Some? ==> count < Cap(limit).value)
    ensures stopped ==> Cap(limit).Some? && count == Cap(limit).value
  {
    unsent, count, stopped, p := unsent0, count0, false, 0;
    var i := 0;
    while i < |batches|
      invariant 0 <= i <= |batches| && count == |unsent|
      invariant p == |Flatten(batches[..i])|
      invariant unsent == unsent0 + Forwarded(Flatten(batches[..i]), KeepRecord(filter), MapRecord(transform), AllSends())
      invariant Cap(limit).Some? ==> count < Cap(limit).value
    {
      var more;
      unsent, count, more, p := ForwardPartition(batches, i, filter, transform, limit, unsent0, unsent, count);
      if more {
        stopped := true;
        return;
      }
      i := i + 1;
    }
    assert batches[..i] == batches;
    assert Flatten(batches)[..p] == Flatten(batches);
  }

  /** Partition `i` of a poll result through `ForwardRecords`, as a step over the result's prefixes. */
  method ForwardPartition(batches: seq<seq<Record>>, i: nat, filter: Option<Value -> bool>,
                          transform: Option<Value -> Value>, limit: Option<int>, ghost unsent0: seq<Record>,
                          unsent1: seq<Record>, count1: nat)
      returns (unsent: seq<Record>, count: nat, stopped: bool, ghost p: nat)
    requires i < |batches| && count1 == |unsent1| && (Cap(limit).Some? ==> count1 < Cap(limit).value)
    requires unsent1 == unsent0 + Forwarded(Flatten(batches[..i]), KeepRecord(filter), MapRecord(transform), AllSends())
    ensures p <= |Flatten(batches)| && count == |unsent|
    ensures unsent == unsent0 + Forwarded(Flatten(batches)[..p], KeepRecord(filter), MapRecord(transform), AllSends())
    ensures !stopped ==> p == |Flatten(batches[..i + 1])|
    ensures !stopped ==>
      unsent == unsent0 + Forwarded(Flatten(batches[..i + 1]), KeepRecord(filter), MapRecord(transform), AllSends())
    ensures !stopped ==> Cap(limit).Some? ==> count < Cap(limit).value
    ensures stopped ==> Cap(limit).Some? && count == Cap(limit).value
  {
    ghost var q;
    unsent, count, stopped, q := ForwardRecords(batches[i], filter, transform, limit, unsent1, count1);
    BatchStep(batches, i, q, KeepRecord(filter), MapRecord(transform));
    AppendAssoc(unsent0, Forwarded(Flatten(batches[..i]), KeepRecord(filter), MapRecord(transform), AllSends()),
                Forwarded(batches[i][..q], KeepRecord(filter), MapRecord(transform), AllSends()));
    p := |Flatten(batches[..i])| + q;
  }

  /**
   * Looking at the first `q` records of partition `i` extends what the
   * earlier partitions handed on, and finishing the partition gives what the
   * first `i + 1` partitions hand on.
   */
  lemma BatchStep(batches: seq<seq<Record>>, i: nat, q: nat, keep: Record -> bool, out: Record -> Record)
    requires i < |batches| && q <= |batches[i]|
    ensures var before := Flatten(batches[..i]);
      && |before| + q <= |Flatten(batches)|
      && Forwarded(Flatten(batches)[..|before| + q], keep, out, AllSends()) ==
         Forwarded(before, keep, out, AllSends()) + Forwarded(batches[i][..q], keep, out, AllSends())
      && (q == |batches[i]| ==>
            |Flatten(batches[..i + 1])| == |before| + q &&
            Forwarded(Flatten(batches[..i + 1]), keep, out, AllSends()) ==
            Forwarded(before, keep, out, AllSends()) + Forwarded(batches[i][..q], keep, out, AllSends()))
  {
    var before := Flatten(batches[..i]);
    FlattenPrefix(batches, i + 1);
    assert batches[..i + 1][..i] == batches[..i];
    assert Flatten(batches[..i + 1]) == before + batches[i];
    assert Flatten(batches)[..|before| + q] == before + batches[i][..q];
    ForwardedAppend(before, batches[i][..q], keep, out, AllSends());
    if q == |batches[i]| {
      assert batches[i][..q] == batches[i];
    }
  }

  /** What earlier partitions of a poll result contribute is a prefix of the whole result. */
  lemma {:induction false} FlattenPrefix(s: seq<seq<Record>>, a: nat)
    requires a <= |s|
    ensures Flatten(s[..a]) <= Flatten(s)
    decreases |s|
  {
    if a < |s| {
      assert s[..|s| - 1][..a] == s[..a];
      FlattenPrefix(s[..|s| - 1], a);
    } else {
      assert s[..a] == s;
    }
  }

  /** One poll's worth of the replay, continuing from the first `done` records of the log. */
  method ForwardPolled(batches: seq<seq<Record>>, ghost log: seq<Record>, ghost done: nat, ghost position: nat,
                       filter: Option<Value -> bool>, transform: Option<Value -> Value>, limit: Option<int>,
                       unsent0: seq<Record>, count0: nat)
      returns (unsent: seq<Record>, count: nat, stopped: bool, ghost done': nat)
    requires done <= position <= |log| && Flatten(batches) == log[done..position]
    requires unsent0 == Forwarded(log[..done], KeepRecord(filter), MapRecord(transform), AllSends())
    requires count0 == |unsent0| && (Cap(limit).Some? ==> count0 < Cap(limit).value)
    ensures done <= done' <= position && count == |unsent|
    ensures unsent == Forwarded(log[..done'], KeepRecord(filter), MapRecord(transform), AllSends())
    ensures !stopped ==> done' == position && (Cap(limit).Some? ==> count < Cap(limit).value)
    ensures stopped ==> Cap(limit).Some? && count == Cap(limit).value
  {
    ghost var p;
    unsent, count, stopped, p := ForwardBatches(batches, filter, transform, limit, unsent0, count0);
    PollStep(log, done, position, Flatten(batches), p, KeepRecord(filter), MapRecord(transform));
    done' := done + p;
  }

  /** The records of one poll continue the stretch of the log the replay has looked at. */
  lemma PollStep(log: seq<Record>, done: nat, position: nat, polled: seq<Record>, p: nat,
                 keep: Record -> bool, out: Record -> Record)
    requires done <= position <= |log| && polled == log[done..position] && p <= |polled|
    ensures done + p <= |log|
    ensures Forwarded(log[..done + p], keep, out, AllSends()) ==
      Forwarded(log[..done], keep, out, AllSends()) + Forwarded(polled[..p], keep, out, AllSends())
  {
    assert log[..done + p] == log[..done] + polled[..p];
    ForwardedAppend(log[..done], polled[..p], keep, out, AllSends());
  }

  /** A poll that ends before the cap is reached leaves the replay's stopping point where it was. */
  lemma DrawnPastPoll(log: seq<Record>, keep: Record -> bool, out: Record -> Record, c: nat, done: nat, position: nat)
    requires done < position == Min(done + ReplayPollRecords, |log|)
    requires |Forwarded(log[..position], keep, out, AllSends())| < c
    ensures DrawnFrom(log, keep, out, AllSends(), c, done, ReplayPollRecords) ==
            DrawnFrom(log, keep, out, AllSends(), c, position, ReplayPollRecords)
  {
  }

  /** A poll within which the count reaches the cap is the last: the consumer stops at its end. */
  lemma DrawnInPoll(log: seq<Record>, keep: Record -> bool, out: Record -> Record, c: nat, done: nat, position: nat, p: nat)
    requires done < position == Min(done + ReplayPollRecords, |log|) && p <= position
    requires |Forwarded(log[..p], keep, out, AllSends())| >= c
    ensures DrawnFrom(log, keep, out, AllSends(), c, done, ReplayPollRecords) == position
  {
    ForwardedMonotone(log, p, position, keep, out, AllSends());
  }

  /** Once the count reaches the cap at prefix `p`, the whole replay would have counted exactly the cap. */
  lemma ReachedCap(log: seq<Record>, p: nat, keep: Record -> bool, out: Record -> Record, c: nat)
    requires p <= |log|
    requires |Forwarded(log[..p], keep, out, AllSends())| == c
    ensures var sent := Forwarded(log, keep, out, AllSends());
      c <= |sent| && sent[..c] == Forwarded(log[..p], keep, out, AllSends())
  {
    assert log == log[..p] + log[p..];
    ForwardedAppend(log[..p], log[p..], keep, out, AllSends());
  }
}
