/**
 * The data model of the workflow application: workflow definitions, their
 * ordered components and connections, retry strategies, runs (full and sub)
 * and the per-component status records a run keeps.
 */
module Models {
  import opened Wrappers
  import opened Values

  /** A `timezone.now()` value; the model never looks inside it. */
  type Timestamp = string

  datatype ValidationMode = Required | Optional | NoValidation {
    function Name(): string {
      match this
      case Required => "required"
      case Optional => "optional"
      case NoValidation => "none"
    }
  }

  const DefaultValidationMode: ValidationMode := Optional

  datatype ComponentType = Kafka | Mq | Db | Service | Api {
    function Name(): string {
      match this
      case Kafka => "kafka"
      case Mq => "mq"
      case Db => "db"
      case Service => "service"
      case Api => "api"
    }
  }

  datatype StrategyType = Fixed | Exponential | Custom {
    function Name(): string {
      match this
      case Fixed => "fixed"
      case Exponential => "exponential"
      case Custom => "custom"
    }
  }

  /** A retry strategy; `nat` fields are the `PositiveIntegerField`s, defaults as declared. */
  datatype RetryStrategy = RetryStrategy(
    strategyType: StrategyType,
    maxRetries: nat := 3,
    initialDelaySeconds: nat := 5,
    backoffFactor: real := 2.0,
    customStrategy: string := "")

  /** A workflow component together with the retry strategies attached to it, in primary-key order. */
  datatype Component = Component(
    id: nat,
    name: string,
    componentType: ComponentType,
    order: nat := 0,
    config: Value := Object(map[]),
    retryStrategies: seq<RetryStrategy> := [])

  datatype ConnectionType = KafkaToKafka | KafkaToMq | MqToMq | MqToKafka | DbOperation {
    function Name(): string {
      match this
      case KafkaToKafka => "kafka_to_kafka"
      case KafkaToMq => "kafka_to_mq"
      case MqToMq => "mq_to_mq"
      case MqToKafka => "mq_to_kafka"
      case DbOperation => "db_operation"
    }
  }

  datatype Connection = Connection(
    id: nat,
    source: Component,
    target: Component,
    connectionType: ConnectionType,
    config: Value := Object(map[]))

  /** Status of a full run or a sub-run. */
  datatype RunStatus = Pending | Running | Completed | Failed | PartiallyCompleted {
    function Name(): string {
      match this
      case Pending => "pending"
      case Running => "running"
      case Completed => "completed"
      case Failed => "failed"
      case PartiallyCompleted => "partially_completed"
    }
  }

  /** Status of one component within a run. */
  datatype ComponentState = Pending | Running | Completed | Failed | Skipped {
    function Name(): string {
      match this
      case Pending => "pending"
      case Running => "running"
      case Completed => "completed"
      case Failed => "failed"
      case Skipped => "skipped"
    }
  }

  /** The mutable columns of a `ComponentExecutionStatus` row, with their declared defaults. */
  datatype StatusRecord = StatusRecord(
    status: ComponentState := ComponentState.Pending,
    startedAt: Option<Timestamp> := None,
    completedAt: Option<Timestamp> := None,
    retryCount: nat := 0,
    errorMessage: string := "")

  /** A freshly created status row: every column at its default. */
  const PendingRecord: StatusRecord := StatusRecord()

  /**
   * The row's identity: the run it belongs to (absent for a standalone
   * sub-run, which creates its rows without one) and the component id.
   */
  datatype StatusKey = StatusKey(execution: Option<string>, component: nat)

  /** The `ComponentExecutionStatus` table, at most one row per key. */
  class StatusTable {
    var records: map<StatusKey, StatusRecord>

    constructor (records: map<StatusKey, StatusRecord>)
      ensures this.records == records
    {
      this.records := records;
    }
  }

  /** One `_log` entry as it is appended to a run's `execution_log`. */
  function LogEntry(now: Timestamp, message: string): string {
    "[" + now + "] " + message + "\n"
  }

  /**
   * The columns a run updates while it executes; `WorkflowExecution` and
   * `SubWorkflowExecution` share them.
   */
  class Execution {
    const id: string
    const validationEnabled: bool
    var status: RunStatus
    var completedAt: Option<Timestamp>
    var executionLog: string

    constructor (id: string, validationEnabled: bool := true)
      ensures this.id == id && this.validationEnabled == validationEnabled
      ensures status == RunStatus.Pending && completedAt == None && executionLog == ""
    {
      this.id := id;
      this.validationEnabled := validationEnabled;
      status := RunStatus.Pending;
      completedAt := None;
      executionLog := "";
    }

    /** `_log`: append exactly one timestamped line; what was logged before stays a prefix. */
    method Log(now: Timestamp, message: string)
      modifies this`executionLog
      ensures executionLog == old(executionLog) + LogEntry(now, message)
      ensures old(executionLog) <= executionLog
    {
      executionLog := executionLog + LogEntry(now, message);
    }
  }

  /** The boundaries of a sub-run and the parent run whose status rows it reuses. */
  datatype SubRunSettings = SubRunSettings(
    start: Component,
    end: Component,
    includeStart: bool := true,
    includeEnd: bool := true,
    parent: Option<string> := None)

  /** The stored choice strings are distinct: each names one mode, type or state. */
  lemma ChoiceNamesDistinct(m1: ValidationMode, m2: ValidationMode, t1: ComponentType, t2: ComponentType,
                            r1: RunStatus, r2: RunStatus, c1: ComponentState, c2: ComponentState)
    ensures m1.Name() == m2.Name() <==> m1 == m2
    ensures t1.Name() == t2.Name() <==> t1 == t2
    ensures r1.Name() == r2.Name() <==> r1 == r2
    ensures c1.Name() == c2.Name() <==> c1 == c2
  {
  }

  /**
   * The declared defaults: validation `optional`; a strategy retries 3 times
   * after 5 seconds with factor 2.0; a component's order is 0; a status row
   * starts `pending` with no retries; a sub-run includes both boundaries and
   * has no parent run.
   */
  lemma DeclaredDefaults(t: StrategyType, id: nat, name: string, ct: ComponentType, start: Component, end: Component)
    ensures DefaultValidationMode.Name() == "optional"
    ensures var r := RetryStrategy(t); r.maxRetries == 3 && r.initialDelaySeconds == 5 && r.backoffFactor == 2.0
    ensures Component(id, name, ct).order == 0 && Component(id, name, ct).retryStrategies == []
    ensures PendingRecord.status.Name() == "pending" && PendingRecord.retryCount == 0 && PendingRecord.errorMessage == ""
    ensures var s := SubRunSettings(start, end); s.includeStart && s.includeEnd && s.parent.None?
  {
  }

  /** `os.path.join(dir, name)` for POSIX paths. */
  function PathJoin(dir: string, name: string): (r: string)
    ensures |r| >= |name| && r[|r| - |name|..] == name
  {
    if |name| > 0 && name[0] == '/' then name
    else if dir == "" || dir[|dir| - 1] == '/' then dir + name
    else dir + "/" + name
  }

  /** The file name `save` gives a workflow's export. */
  function YamlFileName(id: string): string {
    "workflow_" + id + ".yaml"
  }

  /** The `yaml_file_path` after `save`: an empty path is filled in, any other is kept. */
  function SavedPath(path: string, yamlDir: string, id: string): (r: string)
    ensures path != "" ==> r == path
    ensures path == "" ==> r == PathJoin(yamlDir, YamlFileName(id))
    ensures r != ""
  {
    if path == "" then PathJoin(yamlDir, YamlFileName(id)) else path
  }

  /** Saving twice gives the path saving once gave. */
  lemma SavedPathIdempotent(path: string, yamlDir: string, id: string)
    ensures SavedPath(SavedPath(path, yamlDir, id), yamlDir, id) == SavedPath(path, yamlDir, id)
  {
  }

  class WorkflowDefinition {
    const id: string
    const name: string
    const description: string
    const createdBy: string
    const validationMode: ValidationMode
    const isActive: bool
    var yamlFilePath: string

    constructor (id: string, name: string, createdBy: string, description: string := "",
                 validationMode: ValidationMode := DefaultValidationMode, isActive: bool := true,
                 yamlFilePath: string := "")
      ensures this.id == id && this.name == name && this.createdBy == createdBy
      ensures this.description == description && this.validationMode == validationMode
      ensures this.isActive == isActive && this.yamlFilePath == yamlFilePath
    {
      this.id := id;
      this.name := name;
      this.createdBy := createdBy;
      this.description := description;
      this.validationMode := validationMode;
      this.isActive := isActive;
      this.yamlFilePath := yamlFilePath;
    }

    /** `save`: persists (not modelled) and fills in an empty export path. */
    method Save(yamlDir: string)
      modifies this`yamlFilePath
      ensures yamlFilePath == SavedPath(old(yamlFilePath), yamlDir, id)
    {
      if yamlFilePath == "" {
        var filename := YamlFileName(id);
        yamlFilePath := PathJoin(yamlDir, filename);
      }
    }
  }
}
