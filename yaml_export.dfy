/**
 * `WorkflowYAMLGenerator.generate_yaml`: the tree a workflow definition is
 * exported as, before it is dumped as YAML. Dicts are `Object` values; the
 * order of their keys is not part of the model.
 */
module YamlExport {
  import opened Wrappers
  import opened Values
  import opened Models
  import opened Ordering

  /** The strategy type named by an exported `type`. */
  function StrategyTypeNamed(name: string): (t: Option<StrategyType>)
    ensures t.Some? ==> t.value.Name() == name
  {
    if name == "fixed" then Some(Fixed)
    else if name == "exponential" then Some(Exponential)
    else if name == "custom" then Some(Custom)
    else None
  }

  /** The component type named by an exported `type`. */
  function ComponentTypeNamed(name: string): (t: Option<ComponentType>)
    ensures t.Some? ==> t.value.Name() == name
  {
    if name == "kafka" then Some(ComponentType.Kafka)
    else if name == "mq" then Some(ComponentType.Mq)
    else if name == "db" then Some(ComponentType.Db)
    else if name == "service" then Some(Service)
    else if name == "api" then Some(Api)
    else None
  }

  /** The connection type named by an exported `type`. */
  function ConnectionTypeNamed(name: string): (t: Option<ConnectionType>)
    ensures t.Some? ==> t.value.Name() == name
  {
    if name == "kafka_to_kafka" then Some(KafkaToKafka)
    else if name == "kafka_to_mq" then Some(KafkaToMq)
    else if name == "mq_to_mq" then Some(MqToMq)
    else if name == "mq_to_kafka" then Some(MqToKafka)
    else if name == "db_operation" then Some(DbOperation)
    else None
  }

  /** The validation mode named by an exported `validation_mode`. */
  function ValidationModeNamed(name: string): (m: Option<ValidationMode>)
    ensures m.Some? ==> m.value.Name() == name
  {
    if name == "required" then Some(Required)
    else if name == "optional" then Some(Optional)
    else if name == "none" then Some(NoValidation)
    else None
  }

  /**
   * One entry of a component's `retry_strategies`: the type, the retry count
   * and the initial delay always, the backoff factor only for an exponential
   * strategy and the custom logic only for a custom one.
   */
  function StrategyEntry(s: RetryStrategy): (e: map<string, Value>)
    ensures "type" in e && e["type"] == Str(s.strategyType.Name())
    ensures "max_retries" in e && e["max_retries"] == Int(s.maxRetries)
    ensures "initial_delay_seconds" in e && e["initial_delay_seconds"] == Int(s.initialDelaySeconds)
    ensures "backoff_factor" in e <==> s.strategyType == Exponential
    ensures "backoff_factor" in e ==> e["backoff_factor"] == Real(s.backoffFactor)
    ensures "custom_logic" in e <==> s.strategyType == Custom
    ensures "custom_logic" in e ==> e["custom_logic"] == Str(s.customStrategy)
    ensures e.Keys <= {"type", "max_retries", "initial_delay_seconds", "backoff_factor", "custom_logic"}
  {
    var base := map["type" := Str(s.strategyType.Name()),
                    "max_retries" := Int(s.maxRetries),
                    "initial_delay_seconds" := Int(s.initialDelaySeconds)];
    match s.strategyType
    case Exponential => base["backoff_factor" := Real(s.backoffFactor)]
    case Custom => base["custom_logic" := Str(s.customStrategy)]
    case Fixed => base
  }

  /** The entries of a list of strategies, one per strategy, in order. */
  function StrategyEntries(ss: seq<RetryStrategy>): (vs: seq<Value>)
    ensures |vs| == |ss|
  {
    seq(|ss|, i requires 0 <= i < |ss| => Object(StrategyEntry(ss[i])))
  }

  /**
   * One entry of `components`: the id as a string, the name, type, order and
   * config as they are, and `retry_strategies` only when the component has
   * any.
   */
  function ComponentEntry(c: Component): (e: map<string, Value>)
    ensures "id" in e && e["id"] == Str(NatToString(c.id))
    ensures "name" in e && e["name"] == Str(c.name)
    ensures "type" in e && e["type"] == Str(c.componentType.Name())
    ensures "order" in e && e["order"] == Int(c.order)
    ensures "config" in e && e["config"] == c.config
    ensures "retry_strategies" in e <==> c.retryStrategies != []
    ensures "retry_strategies" in e ==> e["retry_strategies"] == Array(StrategyEntries(c.retryStrategies))
    ensures e.Keys <= {"id", "name", "type", "order", "config", "retry_strategies"}
  {
    var base := map["id" := Str(NatToString(c.id)),
                    "name" := Str(c.name),
                    "type" := Str(c.componentType.Name()),
                    "order" := Int(c.order),
                    "config" := c.config];
    if c.retryStrategies == [] then base
    else base["retry_strategies" := Array(StrategyEntries(c.retryStrategies))]
  }

  /** The `{id, name}` reference to a connection's endpoint. */
  function EndpointEntry(c: Component): Value {
    Object(map["id" := Str(NatToString(c.id)), "name" := Str(c.name)])
  }

  /** One entry of `connections`: its id as a string, type, endpoints and config. */
  function ConnectionEntry(c: Connection): (e: map<string, Value>)
    ensures e.Keys == {"id", "type", "source", "target", "config"}
    ensures e["id"] == Str(NatToString(c.id)) && e["type"] == Str(c.connectionType.Name())
    ensures e["source"] == EndpointEntry(c.source) && e["target"] == EndpointEntry(c.target)
    ensures e["config"] == c.config
  {
    map["id" := Str(NatToString(c.id)),
        "type" := Str(c.connectionType.Name()),
        "source" := EndpointEntry(c.source),
        "target" := EndpointEntry(c.target),
        "config" := c.config]
  }

  /** The exported tree for a workflow's fields and its (ordered) components and connections. */
  function Document(id: string, name: string, description: string, createdBy: string, mode: ValidationMode,
                    cs: seq<Component>, conns: seq<Connection>): Value
  {
    Object(map["workflow" := Object(WorkflowFields(id, name, description, createdBy, mode,
                                                   ComponentList(cs), ConnectionList(conns)))])
  }

  /** The fields of the exported `workflow` dict, given the component and connection lists. */
  function WorkflowFields(id: string, name: string, description: string, createdBy: string, mode: ValidationMode,
                          components: seq<Value>, connections: seq<Value>): map<string, Value>
  {
    map["id" := Str(id),
        "name" := Str(name),
        "description" := Str(description),
        "created_by" := Str(createdBy),
        "validation_mode" := Str(mode.Name()),
        "components" := Array(components),
        "connections" := Array(connections)]
  }

  /** The `components` list: one entry per component, in the order given. */
  function ComponentList(cs: seq<Component>): (vs: seq<Value>)
    ensures |vs| == |cs| && forall i :: 0 <= i < |cs| ==> vs[i] == Object(ComponentEntry(cs[i]))
  {
    seq(|cs|, i requires 0 <= i < |cs| => Object(ComponentEntry(cs[i])))
  }

  /** The `connections` list: one entry per connection, in the order given. */
  function ConnectionList(conns: seq<Connection>): (vs: seq<Value>)
    ensures |vs| == |conns| && forall i :: 0 <= i < |conns| ==> vs[i] == Object(ConnectionEntry(conns[i]))
  {
    seq(|conns|, i requires 0 <= i < |conns| => Object(ConnectionEntry(conns[i])))
  }


  /** The digit a character stands for. */
  function DigitOf(c: char): int {
    c as int - '0' as int
  }

  /** A string of decimal digits read as a number. */
  function ParseNat(s: string): int
    decreases |s|
  {
    if s == [] then 0 else 10 * ParseNat(s[..|s| - 1]) + DigitOf(s[|s| - 1])
  }

  lemma DigitRoundTrip(d: nat)
    requires d < 10
    ensures DigitOf(DigitChar(d)) == d
  {
  }

  /** An exported id reads back as the id: `str` on a number loses nothing. */
  lemma {:induction false} NatToStringRoundTrip(n: nat)
    ensures ParseNat(NatToString(n)) == n
    decreases n
  {
    var s := NatToString(n);
    if n < 10 {
      DigitRoundTrip(n);
      assert s[..0] == [];
    } else {
      NatToStringRoundTrip(n / 10);
      DigitRoundTrip(n % 10);
      assert s[..|s| - 1] == NatToString(n / 10);
    }
  }

  /** An exported strategy: its type and counts, and the one extra setting its type carries. */
  function ParseStrategy(v: Value): Option<RetryStrategy> {
    if !v.Object? then None
    else
      var f := v.fields;
      if "type" !in f || !f["type"].Str? || "max_retries" !in f || !f["max_retries"].Int?
         || "initial_delay_seconds" !in f || !f["initial_delay_seconds"].Int? then None
      else
        match StrategyTypeNamed(f["type"].s)
        case None => None
        case Some(t) =>
          if f["max_retries"].i < 0 || f["initial_delay_seconds"].i < 0 then None
          else
            var backoff := if t == Exponential && "backoff_factor" in f && f["backoff_factor"].Real? then f["backoff_factor"].r else 2.0;
            var custom := if t == Custom && "custom_logic" in f && f["custom_logic"].Str? then f["custom_logic"].s else "";
            Some(RetryStrategy(t, f["max_retries"].i, f["initial_delay_seconds"].i, backoff, custom))
  }

  /** The strategy with the settings its type does not use put back to their defaults. */
  function Exported(s: RetryStrategy): RetryStrategy {
    s.(backoffFactor := if s.strategyType == Exponential then s.backoffFactor else 2.0,
       customStrategy := if s.strategyType == Custom then s.customStrategy else "")
  }

  /**
   * A strategy entry determines the strategy except for the settings its
   * type does not use: the backoff factor of a strategy that is not
   * exponential and the custom logic of one that is not custom are dropped.
   */
  lemma StrategyRoundTrip(s: RetryStrategy)
    ensures ParseStrategy(Object(StrategyEntry(s))) == Some(Exported(s))
  {
    var t := s.strategyType;
    assert StrategyTypeNamed(t.Name()) == Some(t) by {
      match t
      case Fixed =>
      case Exponential =>
      case Custom =>
    }
  }

  /** Two strategies export alike exactly when they agree on everything their types use. */
  lemma StrategyEntryInjective(s: RetryStrategy, u: RetryStrategy)
    ensures StrategyEntry(s) == StrategyEntry(u) <==> Exported(s) == Exported(u)
  {
    if StrategyEntry(s) == StrategyEntry(u) {
      StrategyRoundTrip(s);
      StrategyRoundTrip(u);
    }
    if Exported(s) == Exported(u) {
      assert s.strategyType == u.strategyType;
    }
  }

  /** A list of exported entries read back with `parse`, in order; nothing if any of them does not read. */
  function ParseEach<T>(vs: seq<Value>, parse: Value -> Option<T>): Option<seq<T>>
    decreases |vs|
  {
    if vs == [] then Some([])
    else
      match parse(vs[0])
      case None => None
      case Some(x) =>
        match ParseEach(vs[1..], parse)
        case None => None
        case Some(rest) => Some([x] + rest)
  }

  /** A list whose every entry reads back reads back as the list of what they read as. */
  lemma {:induction false} ParseEachAll<T>(vs: seq<Value>, parse: Value -> Option<T>, xs: seq<T>)
    requires |vs| == |xs| && forall i :: 0 <= i < |vs| ==> parse(vs[i]) == Some(xs[i])
    ensures ParseEach(vs, parse) == Some(xs)
    decreases |vs|
  {
    if vs != [] {
      ParseEachAll(vs[1..], parse, xs[1..]);
      assert xs == [xs[0]] + xs[1..];
    }
  }

  /** The exported strategies read back, in order. */
  function ParseStrategies(vs: seq<Value>): Option<seq<RetryStrategy>> {
    ParseEach(vs, ParseStrategy)
  }

  /** Every strategy with its unused settings at their defaults. */
  function ExportedAll(ss: seq<RetryStrategy>): (r: seq<RetryStrategy>)
    ensures |r| == |ss|
  {
    seq(|ss|, i requires 0 <= i < |ss| => Exported(ss[i]))
  }

  lemma StrategiesRoundTrip(ss: seq<RetryStrategy>)
    ensures ParseStrategies(StrategyEntries(ss)) == Some(ExportedAll(ss))
  {
    var vs, xs := StrategyEntries(ss), ExportedAll(ss);
    forall i | 0 <= i < |ss|
      ensures ParseStrategy(vs[i]) == Some(xs[i])
    {
      StrategyRoundTrip(ss[i]);
    }
    ParseEachAll(vs, ParseStrategy, xs);
  }

  /** An exported component read back: id, name, type, order, config and strategies. */
  function ParseComponent(v: Value): Option<Component> {
    if !v.Object? then None
    else
      var f := v.fields;
      if "id" !in f || !f["id"].Str? || "name" !in f || !f["name"].Str? || "type" !in f || !f["type"].Str?
         || "order" !in f || !f["order"].Int? || f["order"].i < 0 || "config" !in f then None
      else
        var id := ParseNat(f["id"].s);
        var strategies :=
          if "retry_strategies" !in f then Some([])
          else if f["retry_strategies"].Array? then ParseStrategies(f["retry_strategies"].items)
          else None;
        match ComponentTypeNamed(f["type"].s)
        case None => None
        case Some(t) =>
          if id < 0 || strategies.None? then None
          else Some(Component(id, f["name"].s, t, f["order"].i, f["config"], strategies.value))
  }

  /**
   * A component entry reads back as the component, except for the settings
   * its strategies' types do not use: nothing else is lost on export.
   */
  lemma ComponentRoundTrip(c: Component)
    ensures ParseComponent(Object(ComponentEntry(c))) == Some(ExportedComponent(c))
  {
    NatToStringRoundTrip(c.id);
    StrategiesRoundTrip(c.retryStrategies);
    assert ComponentTypeNamed(c.componentType.Name()) == Some(c.componentType) by {
      match c.componentType
      case Kafka =>
      case Mq =>
      case Db =>
      case Service =>
      case Api =>
    }
    if c.retryStrategies == [] {
      assert ExportedAll(c.retryStrategies) == [];
    }
  }

  /** A component as its entry keeps it: its strategies with their unused settings at the defaults. */
  function ExportedComponent(c: Component): Component {
    c.(retryStrategies := ExportedAll(c.retryStrategies))
  }

  /** The components as their entries keep them, in order. */
  function ExportedComponents(cs: seq<Component>): (r: seq<Component>)
    ensures |r| == |cs| && forall i :: 0 <= i < |cs| ==> r[i] == ExportedComponent(cs[i])
  {
    seq(|cs|, i requires 0 <= i < |cs| => ExportedComponent(cs[i]))
  }

  /** The exported components read back, in order. */
  function ParseComponents(vs: seq<Value>): Option<seq<Component>> {
    ParseEach(vs, ParseComponent)
  }

  lemma ComponentsRoundTrip(cs: seq<Component>)
    ensures ParseComponents(ComponentList(cs)) == Some(ExportedComponents(cs))
  {
    var vs, xs := ComponentList(cs), ExportedComponents(cs);
    forall i | 0 <= i < |cs|
      ensures ParseComponent(vs[i]) == Some(xs[i])
    {
      ComponentRoundTrip(cs[i]);
    }
    ParseEachAll(vs, ParseComponent, xs);
  }

  /** What a connection entry says of an endpoint: its id and name. */
  datatype EndpointRef = EndpointRef(id: nat, name: string)

  /** What a connection entry says of a connection: id, type, endpoint references and config. */
  datatype ConnectionRef = ConnectionRef(id: nat, connectionType: ConnectionType, source: EndpointRef,
                                         target: EndpointRef, config: Value)

  /** The part of a connection its entry exports. */
  function RefOf(c: Connection): ConnectionRef {
    ConnectionRef(c.id, c.connectionType, EndpointRef(c.source.id, c.source.name),
                  EndpointRef(c.target.id, c.target.name), c.config)
  }

  /** The exported parts of connections, in order. */
  function RefsOf(conns: seq<Connection>): (r: seq<ConnectionRef>)
    ensures |r| == |conns| && forall i :: 0 <= i < |conns| ==> r[i] == RefOf(conns[i])
  {
    seq(|conns|, i requires 0 <= i < |conns| => RefOf(conns[i]))
  }

  /** An `{id, name}` endpoint reference read back. */
  function ParseEndpoint(v: Value): Option<EndpointRef> {
    if !v.Object? || "id" !in v.fields || !v.fields["id"].Str? || "name" !in v.fields || !v.fields["name"].Str? then None
    else
      var id := ParseNat(v.fields["id"].s);
      if id < 0 then None else Some(EndpointRef(id, v.fields["name"].s))
  }

  /** An exported connection read back: id, type, endpoints and config. */
  function ParseConnection(v: Value): Option<ConnectionRef> {
    if !v.Object? then None
    else
      var f := v.fields;
      if "id" !in f || !f["id"].Str? || "type" !in f || !f["type"].Str?
         || "source" !in f || "target" !in f || "config" !in f then None
      else
        var id := ParseNat(f["id"].s);
        match (ConnectionTypeNamed(f["type"].s), ParseEndpoint(f["source"]), ParseEndpoint(f["target"]))
        case (Some(t), Some(source), Some(target)) =>
          if id < 0 then None else Some(ConnectionRef(id, t, source, target, f["config"]))
        case _ => None
  }

  /**
   * A connection entry reads back as the connection's id, type, config and
   * the ids and names of its endpoints; the rest of the endpoint components
   * is not exported.
   */
  lemma ConnectionRoundTrip(c: Connection)
    ensures ParseConnection(Object(ConnectionEntry(c))) == Some(RefOf(c))
  {
    NatToStringRoundTrip(c.id);
    NatToStringRoundTrip(c.source.id);
    NatToStringRoundTrip(c.target.id);
    assert ConnectionTypeNamed(c.connectionType.Name()) == Some(c.connectionType) by {
      match c.connectionType
      case KafkaToKafka =>
      case KafkaToMq =>
      case MqToMq =>
      case MqToKafka =>
      case DbOperation =>
    }
  }

  /** Two connections export alike exactly when they agree on id, type, config and endpoint ids and names. */
  lemma ConnectionEntryInjective(c: Connection, d: Connection)
    ensures ConnectionEntry(c) == ConnectionEntry(d) <==> RefOf(c) == RefOf(d)
  {
    if ConnectionEntry(c) == ConnectionEntry(d) {
      ConnectionRoundTrip(c);
      ConnectionRoundTrip(d);
    }
  }

  /** The exported connections read back, in order. */
  function ParseConnections(vs: seq<Value>): Option<seq<ConnectionRef>> {
    ParseEach(vs, ParseConnection)
  }

  lemma ConnectionsRoundTrip(conns: seq<Connection>)
    ensures ParseConnections(ConnectionList(conns)) == Some(RefsOf(conns))
  {
    var vs, xs := ConnectionList(conns), RefsOf(conns);
    forall i | 0 <= i < |conns|
      ensures ParseConnection(vs[i]) == Some(xs[i])
    {
      ConnectionRoundTrip(conns[i]);
    }
    ParseEachAll(vs, ParseConnection, xs);
  }


  /** What the exported tree says of a workflow. */
  datatype ExportedWorkflow = ExportedWorkflow(id: string, name: string, description: string, createdBy: string,
                                               mode: ValidationMode, components: seq<Component>,
                                               connections: seq<ConnectionRef>)

  /** An exported tree read back: the `workflow` dict's fields, components and connections. */
  function ParseDocument(v: Value): Option<ExportedWorkflow> {
    if !v.Object? || "workflow" !in v.fields || !v.fields["workflow"].Object? then None
    else ParseWorkflow(v.fields["workflow"].fields)
  }

  /** The fields of an exported `workflow` dict read back. */
  function ParseWorkflow(f: map<string, Value>): Option<ExportedWorkflow> {
    if "id" !in f || !f["id"].Str? || "name" !in f || !f["name"].Str? || "description" !in f || !f["description"].Str?
       || "created_by" !in f || !f["created_by"].Str? || "validation_mode" !in f || !f["validation_mode"].Str?
       || "components" !in f || !f["components"].Array? || "connections" !in f || !f["connections"].Array? then None
    else
      match (ValidationModeNamed(f["validation_mode"].s), ParseComponents(f["components"].items),
             ParseConnections(f["connections"].items))
      case (Some(mode), Some(cs), Some(rs)) =>
        Some(ExportedWorkflow(f["id"].s, f["name"].s, f["description"].s, f["created_by"].s, mode, cs, rs))
      case _ => None
  }

  /**
   * The tree has the single key `workflow`, holding exactly the seven
   * fields (`WorkflowFieldsRead`), and it reads back as the workflow's id, name, description,
   * creator and validation mode, its components (up to the strategy
   * settings their types do not use) and its connections' exported parts,
   * all in the order given.
   */
  lemma DocumentRoundTrip(id: string, name: string, description: string, createdBy: string, mode: ValidationMode,
                          cs: seq<Component>, conns: seq<Connection>)
    ensures ParseDocument(Document(id, name, description, createdBy, mode, cs, conns)) ==
      Some(ExportedWorkflow(id, name, description, createdBy, mode,
                            ExportedComponents(cs),
                            RefsOf(conns)))
  {
    ComponentsRoundTrip(cs);
    ConnectionsRoundTrip(conns);
    ValidationModeRoundTrip(mode);
    WorkflowFieldsRead(id, name, description, createdBy, mode, ComponentList(cs), ConnectionList(conns));
  }

  /** The `workflow` dict has exactly the seven keys and reads back when its two lists do. */
  lemma WorkflowFieldsRead(id: string, name: string, description: string, createdBy: string, mode: ValidationMode,
                           components: seq<Value>, connections: seq<Value>)
    requires ValidationModeNamed(mode.Name()) == Some(mode)
    requires ParseComponents(components).Some? && ParseConnections(connections).Some?
    ensures WorkflowFields(id, name, description, createdBy, mode, components, connections).Keys ==
            {"id", "name", "description", "created_by", "validation_mode", "components", "connections"}
    ensures ParseWorkflow(WorkflowFields(id, name, description, createdBy, mode, components, connections)) ==
      Some(ExportedWorkflow(id, name, description, createdBy, mode,
                            ParseComponents(components).value, ParseConnections(connections).value))
  {
  }

  /** An exported validation mode reads back as the mode. */
  lemma ValidationModeRoundTrip(m: ValidationMode)
    ensures ValidationModeNamed(m.Name()) == Some(m)
  {
    match m
    case Required =>
    case Optional =>
    case NoValidation =>
  }

  class WorkflowYamlGenerator {
    const workflow: WorkflowDefinition
    /** The workflow's components ordered by `order`. */
    const components: seq<Component>
    const connections: seq<Connection>

    /** `__init__`: the workflow, its components in ascending `order`, and its connections. */
    constructor (workflow: WorkflowDefinition, workflowComponents: seq<Component>, workflowConnections: seq<Connection>)
      ensures this.workflow == workflow && this.connections == workflowConnections
      ensures components == SortByOrder(workflowComponents)
    {
      this.workflow := workflow;
      components := SortByOrder(workflowComponents);
      connections := workflowConnections;
    }

    /** `generate_yaml`: the workflow's fields with its component and connection lists. */
    method GenerateYaml() returns (data: Value)
      ensures data == Document(workflow.id, workflow.name, workflow.description, workflow.createdBy,
                               workflow.validationMode, components, connections)
    {
      var componentsData := GenerateComponentsYaml();
      var connectionsData := GenerateConnectionsYaml();
      data := Object(map["workflow" := Object(map[
        "id" := Str(workflow.id),
        "name" := Str(workflow.name),
        "description" := Str(workflow.description),
        "created_by" := Str(workflow.createdBy),
        "validation_mode" := Str(workflow.validationMode.Name()),
        "components" := Array(componentsData),
        "connections" := Array(connectionsData)])]);
    }

    /** `_generate_components_yaml`: one entry appended per component, in order. */
    method GenerateComponentsYaml() returns (list: seq<Value>)
      ensures list == ComponentList(components)
    {
      list := [];
      var i := 0;
      while i < |components|
        invariant 0 <= i <= |components| && |list| == i
        invariant forall k :: 0 <= k < i ==> list[k] == Object(ComponentEntry(components[k]))
      {
        var c := components[i];
        var data := map["id" := Str(NatToString(c.id)),
                        "name" := Str(c.name),
                        "type" := Str(c.componentType.Name()),
                        "order" := Int(c.order),
                        "config" := c.config];
        if c.retryStrategies != [] {
          var strategies := GenerateStrategiesYaml(c.retryStrategies);
          data := data["retry_strategies" := Array(strategies)];
        }
        list := list + [Object(data)];
        i := i + 1;
      }
    }

    /** The inner loop of `_generate_components_yaml`: one entry appended per strategy, in order. */
    static method GenerateStrategiesYaml(ss: seq<RetryStrategy>) returns (list: seq<Value>)
      ensures list == StrategyEntries(ss)
    {
      list := [];
      var i := 0;
      while i < |ss|
        invariant 0 <= i <= |ss| && |list| == i
        invariant forall k :: 0 <= k < i ==> list[k] == Object(StrategyEntry(ss[k]))
      {
        var s := ss[i];
        var data := map["type" := Str(s.strategyType.Name()),
                        "max_retries" := Int(s.maxRetries),
                        "initial_delay_seconds" := Int(s.initialDelaySeconds)];
        if s.strategyType == Exponential {
          data := data["backoff_factor" := Real(s.backoffFactor)];
        } else if s.strategyType == Custom {
          data := data["custom_logic" := Str(s.customStrategy)];
        }
        list := list + [Object(data)];
        i := i + 1;
      }
    }

    /** `_generate_connections_yaml`: one entry appended per connection, in order. */
    method GenerateConnectionsYaml() returns (list: seq<Value>)
      ensures list == ConnectionList(connections)
    {
      list := [];
      var i := 0;
      while i < |connections|
        invariant 0 <= i <= |connections| && |list| == i
        invariant forall k :: 0 <= k < i ==> list[k] == Object(ConnectionEntry(connections[k]))
      {
        var c := connections[i];
        var data := map["id" := Str(NatToString(c.id)),
                        "type" := Str(c.connectionType.Name()),
                        "source" := Object(map["id" := Str(NatToString(c.source.id)), "name" := Str(c.source.name)]),
                        "target" := Object(map["id" := Str(NatToString(c.target.id)), "name" := Str(c.target.name)]),
                        "config" := c.config];
        list := list + [Object(data)];
        i := i + 1;
      }
    }
  }
}
