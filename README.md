# Tracemyflow run engine and connectors, in Dafny

Tracemyflow ("flowtracer") is a Django application. It stores **workflow
definitions**: ordered **components** of type kafka, mq, db, service or api,
each with optional **retry strategies** (fixed, exponential or custom). It
also executes them. This project models that core and proves properties of
the model.

- **The workflow run engine.**
  - A **workflow execution** marks itself `running`.
  - It creates one `pending` **component execution status** row per
    component.
  - It executes the components in ascending `order`. Each component gets an
    attempt loop bounded by the first retry strategy's `max_retries`. The
    delay stays constant, or it is multiplied by `backoff_factor` before each
    wait for an exponential strategy.
  - When a component exhausts its attempts and validation is enabled with
    mode `required`, the run aborts. Otherwise it goes on.
  - It ends `completed`, `partially_completed` or `failed`, with an
    append-only execution log.
- **Sub-workflow executions.**
  - A sub-run normalises a reversed window [start, end]: endpoints and include
    flags swap together.
  - It selects the components inside the window.
  - With a parent execution, it resets the parent's status rows of the window
    to `pending`. Without one, it creates fresh rows.
  - Its final status is computed over the window only.
- **The connectors**, each against an abstract in-memory peer.
  - The **MQ connector** (RabbitMQ, ActiveMQ, IBM MQ) talks to a broker: a map
    from queue name to deliveries.
  - The **Kafka connector** talks to a cluster: a map from topic to records.
  - The **DB connector** talks to a database: a per-statement outcome oracle
    for failure, row count and result table, plus a pending/committed
    statement log.
  - Modelled behaviour: config normalisation and default ports, queue
    declare/delete rules, send, receive, consume, and the replay loops with
    their filter, transform, limit and counting rules. For the DB: query row
    mapping, update, all-or-nothing batches, script splitting on `;`,
    transactions, and the export loops.
- **The connector factory**: a case-insensitive type string selects the
  connector. An unsupported type or a constructor that raises yields nothing.
- **The YAML export**: `generate_yaml` builds a tree that holds a workflow, its
  components in order with their strategies, and its connections. A parser
  of that tree recovers the workflow's fields, its components with their
  strategies, and what it exports of each connection.
- **The data model**: enums, defaults, and the `save` rule for the YAML path.

## Layout

| file | module |
|---|---|
| `wrappers.dfy` | Option and Result. |
| `values.dfy` | The JSON-like `Value` of configs and messages, Python truthiness, ASCII lower-casing, decimal rendering. |
| `models.dfy` | Choices, records and defaults from `models.py`. The mutable rows are the classes `Execution` (run columns and log), `StatusTable` (the component status rows) and `WorkflowDefinition`. |
| `ordering.dfy` | `order_by('order')` as a stable insertion sort. |
| `range_selector.dfy` | `_get_components_in_path`. |
| `retry_policy.dfy` | The attempt loop as a pure specification function. |
| `run_engine.dfy` | The pure specification of a pass over the components, and the imperative attempt loop and `_execute_component` shared by both executors. |
| `workflow_executor.dfy` | `WorkflowExecutor`. |
| `sub_workflow_executor.dfy` | `SubWorkflowExecutor`. |
| `replay.dfy` | The specification of replay loops: what is forwarded, what is counted, where a limit stops the loop and how much of the source it consumes. |
| `mq_connector.dfy`, `kafka_connector.dfy`, `db_connector.dfy` | The connectors. |
| `connector_factory.dfy` | The connector factory. |
| `yaml_export.dfy` | `WorkflowYAMLGenerator`. |

Where the executors change rows, logs or connection fields in place, the
model does so too, with classes whose methods are proved against the pure
specification functions. Those functions carry the all-inputs lemmas.

Three behaviours of the code worth noting:

- **Exponential waits.** The delay is multiplied *before* the first wait, so
  `initial_delay_seconds = 1` with factor 2 waits 2, 4, 8 seconds. It does
  not wait 1, 2, 4 (`RetryPolicy.ExponentialExample`).
- **The `channel` setting.** The `channel` value an MQ config supplies is
  overwritten with `None` (mq_connector.py:56, 60). The model keeps no
  channel setting.
- **The sub-run window.**
  - Selection filters on `order`, so it selects by order, not by position.
    Components that share an order with a boundary are all in or all out.
  - A standalone sub-run checks *every* status row of a window component, so
    rows of other executions still count (`SubWorkflowRun.StandaloneRunCompletedIff`).

## Model

| member | source | states |
|---|---|---|
| Models.ChoiceNamesDistinct | tracemyflow/flowtracer/workflow/models.py:13-17 | The stored names of validation modes, component types, run statuses and component statuses identify the choice: equal names iff equal choices (also models.py:40-46, 96-102, 117-123). |
| Models.DeclaredDefaults | tracemyflow/flowtracer/workflow/models.py:87-89 | The declared defaults: validation mode `optional` (line 25); a strategy has 3 retries, a 5 s delay and factor 2.0; a component has order 0 and no strategies (line 51); a status row is `pending` with retry count 0 and no error (lines 127, 130); a sub-run includes both ends and has no parent (lines 159-164). |
| Models.Execution.constructor | tracemyflow/flowtracer/workflow/models.py:95-111 | A new execution is `pending`, has no completion time and an empty log. |
| Models.Execution.Log | tracemyflow/flowtracer/workflow/services/workflow_executor.py:154-162 | `_log` appends exactly one `[ts] msg\n` entry and the old log stays a prefix. |
| Models.SavedPath | tracemyflow/flowtracer/workflow/models.py:32-37 | A non-empty `yaml_file_path` is kept. An empty one becomes the join of the YAML directory and `workflow_{id}.yaml`. The result is never empty. |
| Models.SavedPathIdempotent | tracemyflow/flowtracer/workflow/models.py:32-37 | Saving twice gives the same path as saving once. |
| Models.PathJoin | tracemyflow/flowtracer/workflow/models.py:35 | The joined path ends with the file name. |
| Models.WorkflowDefinition.Save | tracemyflow/flowtracer/workflow/models.py:32-37 | `save` sets the path by the rule above and changes nothing else. |
| Ordering.SortByOrder | tracemyflow/flowtracer/workflow/services/workflow_executor.py:23 | `order_by('order')` gives an ascending permutation of the components. |
| Ordering.InsertAscending | tracemyflow/flowtracer/workflow/services/workflow_executor.py:23 | Inserting into an ascending list keeps it ascending. |
| RangeSelector.Normalize | tracemyflow/flowtracer/workflow/services/sub_workflow_executor.py:45-50 | Afterwards start order ≤ end order. The bounds are either unchanged or flipped, endpoints and flags together, and are unchanged when already in order. |
| RangeSelector.NormalizeFlip | tracemyflow/flowtracer/workflow/services/sub_workflow_executor.py:45-50 | Normalising is idempotent. Distinct orders give the same normalised bounds from either direction. |
| RangeSelector.SelectIsWindowFilter | tracemyflow/flowtracer/workflow/services/sub_workflow_executor.py:53-60 | The four flag-driven branches select exactly the ordered filter by the window predicate (`>=`/`>` at start, `<=`/`<` at end). |
| RangeSelector.SelectMembership | tracemyflow/flowtracer/workflow/services/sub_workflow_executor.py:53-60 | A component is selected iff it is in the list and its order satisfies the window. |
| RangeSelector.SelectSymmetric | tracemyflow/flowtracer/workflow/services/sub_workflow_executor.py:45-60 | Selecting with `(a, b, fa, fb)` gives the same sequence as `(b, a, fb, fa)`. |
| RangeSelector.SameOrderWindow | tracemyflow/flowtracer/workflow/services/sub_workflow_executor.py:53-60 | When both ends share an order, a non-empty result needs both flags. With both flags the result is exactly the components of that order. |
| RangeSelector.SelectIsSlice | tracemyflow/flowtracer/workflow/services/sub_workflow_executor.py:38-60 | On an ascending list the selection is a contiguous slice. |
| RangeSelector.SelectAscending | tracemyflow/flowtracer/workflow/services/sub_workflow_executor.py:38-60 | The selection keeps the ascending order of the full list. |
| RangeSelector.FilterMembers | tracemyflow/flowtracer/workflow/services/sub_workflow_executor.py:53-60 | Filtering keeps exactly the members whose order satisfies the predicate. |
| RetryPolicy.AttemptsBounded | tracemyflow/flowtracer/workflow/services/workflow_executor.py:99 | The body runs between 1 and `max_retries + 1` times. Every attempt before the last raised, and a success ends the loop. |
| RetryPolicy.AttemptsFromShape | tracemyflow/flowtracer/workflow/services/workflow_executor.py:99-144 | From any attempt on: the attempts stop at the first success. Without one, all `max_retries + 1` attempts raised and the last error is kept. There is one wait per retry, and the log events list each retry's 1-based number and error and end with the success or give-up event. |
| RetryPolicy.AllAttemptsFail | tracemyflow/flowtracer/workflow/services/workflow_executor.py:121-144 | When every attempt raises: no success, `max_retries + 1` failures, the last attempt's error, and `max_retries` waits. |
| RetryPolicy.SucceedsIffSomeAttemptSucceeds | tracemyflow/flowtracer/workflow/services/workflow_executor.py:99-123 | The loop succeeds iff some attempt within the budget succeeds. |
| RetryPolicy.RetryWaits | tracemyflow/flowtracer/workflow/services/workflow_executor.py:129-135 | There is one wait per retry, and the wait before retry k is `initial_delay * factor^k` for exponential and `initial_delay` otherwise. |
| RetryPolicy.GrownClosedForm | tracemyflow/flowtracer/workflow/services/workflow_executor.py:131-133 | Growing the delay n times multiplies it by `factor^n`. It leaves the delay unchanged without backoff. |
| RetryPolicy.AttemptsFromWaits | tracemyflow/flowtracer/workflow/services/workflow_executor.py:129-135 | The i-th wait from any attempt on is the delay grown i + 1 times. |
| RetryPolicy.AttemptEvents | tracemyflow/flowtracer/workflow/services/workflow_executor.py:115-141 | There is one log event per attempt. Every event but the last is a retry of a raising attempt, and the last is the success or the give-up. |
| RetryPolicy.NoStrategySingleAttempt | tracemyflow/flowtracer/workflow/services/workflow_executor.py:88-95 | With no strategy there is exactly one attempt and no wait. |
| RetryPolicy.FirstStrategyOnly | tracemyflow/flowtracer/workflow/services/workflow_executor.py:92-95 | Only the first strategy decides the policy. |
| RetryPolicy.ExponentialExample | tracemyflow/flowtracer/workflow/services/workflow_executor.py:129-135 | For exponential(3 retries, delay 1, factor 2) and a body that always raises, there are 4 attempts with waits 2, 4, 8. |
| RunEngine.InitStatuses | tracemyflow/flowtracer/workflow/services/workflow_executor.py:69-76 | The table gains exactly one key per component, which holds a `pending` row. Other rows are unchanged. |
| RunEngine.ComponentOutcome | tracemyflow/flowtracer/workflow/services/workflow_executor.py:78-147 | A saved row is terminal. It is `completed` iff some attempt within the budget succeeded. A `failed` row has `retry_count = max_retries + 1` and the last error. Both timestamps are set. |
| RunEngine.AbortLeavesRowRunning | tracemyflow/flowtracer/workflow/services/workflow_executor.py:143-147 | As written, under an abort the row stays `running`, while the completed save would record `failed` (the finding below). |
| RunEngine.StepExecutes | tracemyflow/flowtracer/workflow/services/workflow_executor.py:38-44 | One loop iteration saves the component's finished row, appends its log lines and waits, and records an abort exactly when the component failed under required validation. |
| RunEngine.StopIndex | tracemyflow/flowtracer/workflow/services/workflow_executor.py:38-59 | The first component that aborts the pass: none before it aborts. |
| RunEngine.RunAfterAbort | tracemyflow/flowtracer/workflow/services/workflow_executor.py:38-59 | Once a pass has aborted, no later component starts. |
| RunEngine.RunAppends | tracemyflow/flowtracer/workflow/services/workflow_executor.py:154-162 | A pass only appends to the log and to the waits. |
| RunEngine.RunOutsideUnchanged | tracemyflow/flowtracer/workflow/services/workflow_executor.py:38-44 | A pass leaves every row of other components and other executions unchanged. |
| RunEngine.RunWithoutAbort | tracemyflow/flowtracer/workflow/services/workflow_executor.py:137-144 | Without required validation the pass never aborts, and every row of the pass ends `completed` or `failed`. |
| RunEngine.RunOutcome | tracemyflow/flowtracer/workflow/services/workflow_executor.py:38-59 | A pass executes exactly the components up to the first abort. Their rows are the finished rows, and no later component changes. |
| RunEngine.PassStatuses | tracemyflow/flowtracer/workflow/services/workflow_executor.py:36-44 | After initialisation and a pass without abort, a component's row is `completed` iff its attempts succeeded. Rows outside the pass are unchanged. |
| RunEngine.FullRunCompletedIff | tracemyflow/flowtracer/workflow/services/workflow_executor.py:47-54 | Without an abort, every row of the execution is `completed` iff every component succeeded (so `completed` vs `partially_completed`). With zero components the run is `completed` (lines 149-152). |
| RunEngine.NextDelay | tracemyflow/flowtracer/workflow/services/workflow_executor.py:130-133 | The next delay is the policy's growth of the current one. |
| RunEngine.AttemptLoop | tracemyflow/flowtracer/workflow/services/workflow_executor.py:97-144 | The `while` loop yields the attempted row of the specification, appends its log lines, requests its waits, and reports an abort iff it failed under required validation. |
| RunEngine.ExecuteComponent | tracemyflow/flowtracer/workflow/services/workflow_executor.py:78-147 | The table changes only at the component's key, to the finished row. The log gains the component's lines. The result is whether the run aborts. (Corrected abort save; see Findings.) |
| RunEngine.ExecutePass | tracemyflow/flowtracer/workflow/services/workflow_executor.py:38-44 | The loop over the components ends in exactly the state of the specification pass. (Corrected abort save; see Findings.) |
| WorkflowRun.WorkflowExecutor.constructor | tracemyflow/flowtracer/workflow/services/workflow_executor.py:19-23 | The executor's components are the workflow's components sorted by order. |
| WorkflowRun.WorkflowExecutor.InitializeComponentStatuses | tracemyflow/flowtracer/workflow/services/workflow_executor.py:69-76 | The table becomes the initialised table: one new `pending` row per component. |
| WorkflowRun.WorkflowExecutor.CheckAllComponentsCompleted | tracemyflow/flowtracer/workflow/services/workflow_executor.py:149-152 | True iff every row of this execution is `completed`. |
| WorkflowRun.WorkflowExecutor.Execute | tracemyflow/flowtracer/workflow/services/workflow_executor.py:25-67 | The table is the specified pass's table. The status is `failed` on abort, otherwise `completed` or `partially_completed` by the rows. The log gains the start, component and end lines. `completed_at` is set. (Corrected abort save; see Findings.) |
| WorkflowRun.WorkflowExecutor.Finish | tracemyflow/flowtracer/workflow/services/workflow_executor.py:47-67 | The final status, its log line and `completed_at` from the pass's outcome. |
| WorkflowRun.WorkflowExecutor.ExecuteSubWorkflow | tracemyflow/flowtracer/workflow/services/workflow_executor.py:198-211 | Gets or creates the one row (as `pending`) and executes only that component. No other row changes. Returns the row's status, or the abort error. (Corrected abort save; see Findings.) |
| SubWorkflowRun.SubWorkflowExecutor.constructor | tracemyflow/flowtracer/workflow/services/sub_workflow_executor.py:20-30 | The bounds are normalised, and the components are the window selected from the ordered components. |
| SubWorkflowRun.SubWorkflowExecutor.InitializeComponentStatuses | tracemyflow/flowtracer/workflow/services/sub_workflow_executor.py:111-141 | With a parent execution, each window row is reset to `pending` with timestamps, retry count and error cleared, or created when missing. Without one, a new row is created per window component. Other rows are unchanged (via `RunEngine.InitStatuses`). |
| SubWorkflowRun.SubWorkflowExecutor.CheckAllComponentsCompleted | tracemyflow/flowtracer/workflow/services/sub_workflow_executor.py:214-226 | True iff every row of a window component in scope (only the parent's rows when there is a parent) is `completed`. |
| SubWorkflowRun.SubWorkflowExecutor.Execute | tracemyflow/flowtracer/workflow/services/sub_workflow_executor.py:64-109 | The same state machine as the full run, over the window. The status is `failed` on abort, otherwise from the window rows. The log gains the start, component and end lines. `completed_at` is stamped on every path. (Corrected abort save; see Findings.) |
| SubWorkflowRun.SubWorkflowExecutor.Finish | tracemyflow/flowtracer/workflow/services/sub_workflow_executor.py:86-109 | The final status, its log line and `completed_at` from the pass's outcome. |
| SubWorkflowRun.ParentRunCompletedIff | tracemyflow/flowtracer/workflow/services/sub_workflow_executor.py:214-226 | With a parent and no abort, the window is completed iff every window component succeeded. Rows outside the window do not matter. |
| SubWorkflowRun.StandaloneRunCompletedIff | tracemyflow/flowtracer/workflow/services/sub_workflow_executor.py:214-226 | Without a parent and no abort, the window is completed iff every window component succeeded and every row other executions hold for window components is `completed`. |
| Replay.ForwardedAppend | tracemyflow/flowtracer/workflow/services/connectors/mq_connector.py:460-471 | What a replay forwards from a concatenation is the concatenation of what it forwards from each part. |
| Replay.ForwardedMembers | tracemyflow/flowtracer/workflow/services/connectors/mq_connector.py:460-471 | A value is forwarded iff it is the transform of a message that passes the filter and that the target accepts. No more values are forwarded than there are messages. |
| Replay.ForwardedAll | tracemyflow/flowtracer/workflow/services/connectors/mq_connector.py:460-471 | With no filter, no transform and a target that accepts everything, everything is forwarded unchanged. |
| Replay.Bounded | tracemyflow/flowtracer/workflow/services/connectors/mq_connector.py:474-476 | The count never exceeds the sends or the cap. It equals the cap when enough are sent, and equals the sends without a cap. |
| Replay.CapBound | tracemyflow/flowtracer/workflow/services/connectors/mq_connector.py:474-476 | A positive limit bounds the count. A `None` or `0` limit leaves it unbounded. A negative limit stops after the first send. |
| Replay.LimitReachedAtCap | tracemyflow/flowtracer/workflow/services/connectors/mq_connector.py:474-476 | `if limit and count >= limit` holds iff the count has reached the cap. |
| Replay.StopPrefix | tracemyflow/flowtracer/workflow/services/connectors/mq_connector.py:474-476 | The shortest prefix of the source after which exactly c messages have been sent. |
| Replay.StopPrefixUnique | tracemyflow/flowtracer/workflow/services/connectors/mq_connector.py:474-476 | That prefix is the only one whose last message brings the count to c. |
| Replay.DrawnAll | tracemyflow/flowtracer/workflow/services/connectors/mq_connector.py:451-457 | Without a reached cap, the loop drains the whole source queue. |
| Replay.DrawnBounds | tracemyflow/flowtracer/workflow/services/connectors/mq_connector.py:451-476 | With a reached cap, the loop drains past the stopping message only to the end of that batch. |
| MqConnect.SettingsOf | tracemyflow/flowtracer/workflow/services/connectors/mq_connector.py:19-62 | A dict config with a string (or absent) type succeeds; the type is lower-cased and mapped, falling back to `rabbitmq`; the port is the config's or the type's default. |
| MqConnect.TypeCaseInsensitive | tracemyflow/flowtracer/workflow/services/connectors/mq_connector.py:37-41 | The settings do not depend on the case of `mq_type`. |
| MqConnect.UnsupportedTypeIsRabbit | tracemyflow/flowtracer/workflow/services/connectors/mq_connector.py:39-41 | An unsupported type falls back to `rabbitmq` and port 5672. |
| MqConnect.DefaultPortByType | tracemyflow/flowtracer/workflow/services/connectors/mq_connector.py:64-72 | The default ports are 5672, 61616 and 1414 for rabbitmq, activemq and ibmmq. |
| MqConnect.DefaultSettings | tracemyflow/flowtracer/workflow/services/connectors/mq_connector.py:25-41 | The empty config gives rabbitmq on localhost:5672 as guest/guest on vhost `/`. |
| MqConnect.SentIsReceived | tracemyflow/flowtracer/workflow/services/connectors/mq_connector.py:270-292 | What `send_message` encodes, `receive_messages` decodes to the same values (JSON round trip). |
| MqConnect.Enqueue | tracemyflow/flowtracer/workflow/services/connectors/mq_connector.py:270-292 | A known queue (or one the send creates) gains the items at its end. An unknown queue is not created otherwise. |
| MqConnect.Drained | tracemyflow/flowtracer/workflow/services/connectors/mq_connector.py:350-361 | Taking n messages leaves the rest of the queue and no change to the set of queues. |
| MqConnect.RabbitProperties | tracemyflow/flowtracer/workflow/services/connectors/mq_connector.py:295-319 | Only the eight named keys are copied, with their values. |
| MqConnect.Fetched | tracemyflow/flowtracer/workflow/services/connectors/mq_connector.py:350-361 | A receive takes at most `count` messages and stops at an empty fetch. |
| MqConnect.MqConnector.constructor | tracemyflow/flowtracer/workflow/services/connectors/mq_connector.py:19-62 | The settings are the normalised config, and there is no connection or channel (the supplied channel is dropped, lines 56, 60). |
| MqConnect.MqConnector.Connect | tracemyflow/flowtracer/workflow/services/connectors/mq_connector.py:74-93 | Succeeds iff the broker is reachable. Only RabbitMQ opens a channel. A failure changes nothing. |
| MqConnect.MqConnector.Disconnect | tracemyflow/flowtracer/workflow/services/connectors/mq_connector.py:172-189 | No connection or channel remains. |
| MqConnect.MqConnector.DeclareQueue | tracemyflow/flowtracer/workflow/services/connectors/mq_connector.py:191-236 | Succeeds iff connected or connectable. Only RabbitMQ creates the queue. ActiveMQ and IBM MQ return True without change. |
| MqConnect.MqConnector.DeleteQueue | tracemyflow/flowtracer/workflow/services/connectors/mq_connector.py:550-585 | Succeeds iff connectable and RabbitMQ (ActiveMQ and IBM MQ return False, lines 573-580). Only that queue disappears. |
| MqConnect.MqConnector.CreateRabbitProperties | tracemyflow/flowtracer/workflow/services/connectors/mq_connector.py:295-319 | The loop builds exactly the restricted properties. |
| MqConnect.MqConnector.SendMessage | tracemyflow/flowtracer/workflow/services/connectors/mq_connector.py:238-293 | Unreachable: False and no change. Otherwise it succeeds iff the broker accepts the message. On success the target gains the JSON body with the type's properties, and ActiveMQ creates the queue. |
| MqConnect.MqConnector.ReceiveMessages | tracemyflow/flowtracer/workflow/services/connectors/mq_connector.py:321-424 | Returns, in fetch order, the decoded first `min(count, available)` messages (`[]` for a missing queue), and drains exactly those (RabbitMQ and IBM MQ branches). |
| MqConnect.MqConnector.ReplayQueueToQueue | tracemyflow/flowtracer/workflow/services/connectors/mq_connector.py:426-482 | Unreachable: 0 and no change. Otherwise the count is the number of accepted sends of filtered, transformed messages, bounded by a truthy limit. The target gains exactly those messages, and the source loses the batches drawn up to the stop. Afterwards the connector is connected. For RabbitMQ the channel is open; for the other types a channel opened before stays open. Unreachable: the connection state is unchanged. |
| MqConnect.MqConnector.PullAndForward | tracemyflow/flowtracer/workflow/services/connectors/mq_connector.py:450-479 | The `while True` loop over batches of 10, with the same outcome as above once connected. The connection stays up. The channel is open afterwards for RabbitMQ, and unchanged for the other types. |
| MqConnect.MqConnector.ForwardMessages | tracemyflow/flowtracer/workflow/services/connectors/mq_connector.py:458-476 | One batch: forwards and counts its messages in order, stopping at the message that reaches the cap. |
| MqConnect.MqConnector.ReplayQueueToKafka | tracemyflow/flowtracer/workflow/services/connectors/mq_connector.py:484-548 | The same counting into a Kafka topic, records unkeyed. On connect failure of the broker, or of the Kafka connector (lines 511-514), it returns 0. The MQ connection and channel end as for `replay_queue_to_queue`. When the Kafka connection fails, the channel is as the connect guard left it. A Kafka connector that had a producer is left unchanged. One that connected here has new clients with the built configs, no subscription and position 0. Unreachable broker or cluster: the Kafka connector is unchanged. |
| MqConnect.MqConnector.PullAndProduce | tracemyflow/flowtracer/workflow/services/connectors/mq_connector.py:516-545 | The loop of `replay_queue_to_kafka` once both ends are connected. The topic gains exactly the counted records. The Kafka connector is left unchanged, because it already has a producer. The MQ connection stays up, and RabbitMQ's channel is open afterwards. |
| KafkaConnect.SettingsOf | tracemyflow/flowtracer/workflow/services/connectors/kafka_connector.py:16-45 | Any dict is accepted. The fields are the config's or their defaults. |
| KafkaConnect.DefaultSettings | tracemyflow/flowtracer/workflow/services/connectors/kafka_connector.py:31-39 | Defaults are `localhost:9092`, `default-group` and `earliest`, and the security fields are `None`. |
| KafkaConnect.SaslNeedsBoth | tracemyflow/flowtracer/workflow/services/connectors/kafka_connector.py:64-71 | The protocol and mechanism are included only when set. The SASL user and password are included only when both are set. |
| KafkaConnect.Published | tracemyflow/flowtracer/workflow/services/connectors/kafka_connector.py:129-148 | Publishing appends the records to the topic's log. |
| KafkaConnect.PublishedAppend | tracemyflow/flowtracer/workflow/services/connectors/kafka_connector.py:226-243 | Publishing a then b is publishing a + b. |
| KafkaConnect.EncodedKey | tracemyflow/flowtracer/workflow/services/connectors/kafka_connector.py:136-137 | The key is kept iff it is truthy. |
| KafkaConnect.KafkaConnector.constructor | tracemyflow/flowtracer/workflow/services/connectors/kafka_connector.py:16-45 | The settings are the normalised config, and there is no producer or consumer. |
| KafkaConnect.KafkaConnector.AddSecurity | tracemyflow/flowtracer/workflow/services/connectors/kafka_connector.py:64-71 | The conditional insertions add exactly the security keys of the settings, with their values. |
| KafkaConnect.KafkaConnector.ProducerConfig | tracemyflow/flowtracer/workflow/services/connectors/kafka_connector.py:58-71 | The producer config is the bootstrap servers plus the security keys. |
| KafkaConnect.KafkaConnector.ConsumerConfig | tracemyflow/flowtracer/workflow/services/connectors/kafka_connector.py:78-91 | The consumer config also carries the group id and offset reset. |
| KafkaConnect.KafkaConnector.Connect | tracemyflow/flowtracer/workflow/services/connectors/kafka_connector.py:47-100 | It succeeds iff the cluster is reachable. Then both clients are new, with the configs built from the settings, and the consumer has no subscription and position 0. A failure changes nothing. |
| KafkaConnect.KafkaConnector.SendMessage | tracemyflow/flowtracer/workflow/services/connectors/kafka_connector.py:117-148 | Unreachable without a producer: False and no change. Otherwise it returns whether delivery succeeded, and on success appends the record with the truthy key. The connector is unchanged when it had a producer; otherwise it is freshly connected (consumer unsubscribed, position 0). |
| KafkaConnect.KafkaConnector.ConsumeMessages | tracemyflow/flowtracer/workflow/services/connectors/kafka_connector.py:150-184 | On connect failure: `[]` and no change. Otherwise the consumer is subscribed to the topic. It returns the values of the next up to `max_records` records, from the kept position when it was already on that topic and from the reset position otherwise, and moves past them (`[]` and no move for `max_records < 1`). An existing consumer keeps the producer and configs; a new connection leaves both clients configured. |
| KafkaConnect.KafkaConnector.CollectValues | tracemyflow/flowtracer/workflow/services/connectors/kafka_connector.py:174-178 | The polled batches flattened partition by partition, values only. |
| KafkaConnect.KafkaConnector.ReplayTopicToTopic | tracemyflow/flowtracer/workflow/services/connectors/kafka_connector.py:186-248 | Unreachable with a client missing: 0 and no change. Otherwise it counts the records that pass the filter, sent with their keys, bounded by a truthy limit; the target's log gains the delivered ones after the flush. Afterwards the consumer is subscribed to the source, at the end of the last poll the replay made (all of the source without a reached cap). Existing clients keep their configs. |
| KafkaConnect.KafkaConnector.ReplayFromStart | tracemyflow/flowtracer/workflow/services/connectors/kafka_connector.py:209-245 | Once both clients exist: the same count and target log, with the consumer subscribed to the source and positioned after the last poll of 100 records. |
| KafkaConnect.KafkaConnector.PollAndForward | tracemyflow/flowtracer/workflow/services/connectors/kafka_connector.py:216-243 | Polling from the beginning until an empty poll, the unflushed records are the first `count` forwarded records, and the consumer ends at the end of the poll that reached the cap, or at the end of the log. |
| KafkaConnect.DrawnPastPoll | tracemyflow/flowtracer/workflow/services/connectors/kafka_connector.py:218-240 | A poll after which the cap is still not reached does not move the point where the replay stops. |
| KafkaConnect.DrawnInPoll | tracemyflow/flowtracer/workflow/services/connectors/kafka_connector.py:233-240 | The poll within which the count reaches the cap is the last one: the consumer stops at its end. |
| KafkaConnect.ForwardBatches | tracemyflow/flowtracer/workflow/services/connectors/kafka_connector.py:226-243 | One poll: forward and count across partitions in order, stopping at the cap. |
| DbConnect.SettingsOf | tracemyflow/flowtracer/workflow/services/connectors/db_connector.py:19-53 | A dict config with a string (or absent) type succeeds. The type is lower-cased and mapped, falling back to `postgresql`. The port is the config's or the default. For sqlite, host, user and password default to `None`. |
| DbConnect.DefaultPortByType | tracemyflow/flowtracer/workflow/services/connectors/db_connector.py:55-67 | The default ports are 5432, 3306, 1521 and 1433. |
| DbConnect.SqliteDefaults | tracemyflow/flowtracer/workflow/services/connectors/db_connector.py:41-45 | Sqlite has no port, host, user or password. |
| DbConnect.UnsupportedTypeIsPostgres | tracemyflow/flowtracer/workflow/services/connectors/db_connector.py:34-38 | An unsupported type falls back to `postgresql` on port 5432. |
| DbConnect.TypeCaseInsensitive | tracemyflow/flowtracer/workflow/services/connectors/db_connector.py:34 | The settings do not depend on the case of `db_type`. |
| DbConnect.DefaultSettings | tracemyflow/flowtracer/workflow/services/connectors/db_connector.py:24-45 | The empty config gives postgresql on localhost:5432. |
| DbConnect.QueryResult | tracemyflow/flowtracer/workflow/services/connectors/db_connector.py:240-270 | A failing query gives `[]`. Otherwise there is one dict per row: the dict cursor's for PostgreSQL and MySQL, `dict(row)` of `sqlite3.Row` for SQLite, and the generic mapping for the others, which gives `[]` when a row is longer than the columns. |
| DbConnect.ManualRowAt | tracemyflow/flowtracer/workflow/services/connectors/db_connector.py:256-270 | A mapped row holds exactly its columns' names, each with the value at the same index. |
| DbConnect.RowsAgree | tracemyflow/flowtracer/workflow/services/connectors/db_connector.py:240-270 | On full-width rows, the driver's dict rows and the generic mapping agree; for SQLite, when no two column names are equal ignoring case. |
| DbConnect.FirstLike | tracemyflow/flowtracer/workflow/services/connectors/db_connector.py:251-254 | The column `sqlite3.Row` reads for a name: the first whose name equals it ignoring case. |
| DbConnect.SqliteRowAt | tracemyflow/flowtracer/workflow/services/connectors/db_connector.py:251-254 | Every column name is a key of each SQLite row, holding the value of the first column whose name matches it ignoring case. |
| DbConnect.SqliteZipIsZip | tracemyflow/flowtracer/workflow/services/connectors/db_connector.py:248-254 | With column names distinct ignoring case, SQLite's dict is the one a dict cursor builds. |
| DbConnect.SqliteCaseCollision | tracemyflow/flowtracer/workflow/services/connectors/db_connector.py:251-254 | Columns `id` and `ID`: SQLite gives both keys the first value, a dict cursor keeps each column's own. |
| DbConnect.ManualOverflowIsEmpty | tracemyflow/flowtracer/workflow/services/connectors/db_connector.py:262-270 | A row with more values than columns makes the generic mapping raise, so the result is `[]`. |
| DbConnect.DbConnector.MapRows | tracemyflow/flowtracer/workflow/services/connectors/db_connector.py:256-268 | The loop succeeds iff every row fits its columns, and then yields the mapped rows. |
| DbConnect.DbConnector.ExecuteQuery | tracemyflow/flowtracer/workflow/services/connectors/db_connector.py:223-270 | On connect failure it returns `[]`. Otherwise it returns the query's result by the database type's mapping above (SQLite's first-match rows included) and records the statement as pending when it runs. |
| DbConnect.DbConnector.ExecuteUpdate | tracemyflow/flowtracer/workflow/services/connectors/db_connector.py:272-308 | On success it commits and returns the row count. On error it rolls back and returns 0, with nothing committed. |
| DbConnect.DbConnector.ExecuteBatch | tracemyflow/flowtracer/workflow/services/connectors/db_connector.py:310-347 | All or nothing: when the begin (only on drivers whose connections have one), every statement and the commit succeed, it commits all of them and returns the sum of their row counts. Otherwise it rolls back, commits nothing and returns 0. (Corrected begin; see Findings.) |
| DbConnect.BatchTotalAsWritten | tracemyflow/flowtracer/workflow/services/connectors/db_connector.py:327-347 | As written, a batch on a driver without `begin` always returns 0. |
| DbConnect.BatchAsWrittenRollsBack | tracemyflow/flowtracer/workflow/services/connectors/db_connector.py:331 | A PostgreSQL, SQLite or SQL Server batch of one successful one-row statement returns 0 as written, where the corrected batch commits it and returns 1. |
| DbConnect.RowCountSumAppend | tracemyflow/flowtracer/workflow/services/connectors/db_connector.py:327-335 | The batch total is additive over concatenation. |
| DbConnect.RowCountSumBound | tracemyflow/flowtracer/workflow/services/connectors/db_connector.py:327-335 | With non-negative counts, the total is at least each statement's count. |
| DbConnect.DbConnector.BeginTransaction | tracemyflow/flowtracer/workflow/services/connectors/db_connector.py:349-374 | It connects if needed. SQLite executes `BEGIN` and it joins the transaction. The other types call `connection.begin()`, which always raises for PostgreSQL and SQL Server and may fail for MySQL and Oracle. |
| DbConnect.DbConnector.CommitTransaction | tracemyflow/flowtracer/workflow/services/connectors/db_connector.py:376-393 | It returns False without a connection (lines 383-385). Otherwise it commits the pending statements iff the commit succeeds. |
| DbConnect.DbConnector.RollbackTransaction | tracemyflow/flowtracer/workflow/services/connectors/db_connector.py:395-412 | It returns False and changes nothing without a connection (lines 402-404). Otherwise it discards the pending statements. |
| DbConnect.Split | tracemyflow/flowtracer/workflow/services/connectors/db_connector.py:444 | `script.split(';')` has at least one piece. |
| DbConnect.SplitJoin | tracemyflow/flowtracer/workflow/services/connectors/db_connector.py:444 | Joining the pieces with `;` gives the script back, and no piece holds a `;`. |
| DbConnect.JoinSplit | tracemyflow/flowtracer/workflow/services/connectors/db_connector.py:444 | Splitting a join of `;`-free pieces gives the pieces back. |
| DbConnect.ScriptPieces | tracemyflow/flowtracer/workflow/services/connectors/db_connector.py:440-453 | Every statement a non-postgres, non-sqlite script runs is a non-blank piece of the split. |
| DbConnect.BlankScript | tracemyflow/flowtracer/workflow/services/connectors/db_connector.py:444-447 | A script of blank pieces runs no statement. |
| DbConnect.DbConnector.ExecuteScript | tracemyflow/flowtracer/workflow/services/connectors/db_connector.py:414-453 | It runs the script's statements in order and commits once at the end. On any failure it rolls back, commits nothing and returns False. |
| DbConnect.DbConnector.ExportQueryToMq | tracemyflow/flowtracer/workflow/services/connectors/db_connector.py:610-657 | The count is the number of result rows, transformed when a transform is given, whatever the sends return (lines 641-655). The queue gains the accepted ones. On a connect failure it returns 0. Afterwards the database is connected, and its open transaction holds the query unless the query raised. The MQ connector is connected. Its channel is what the connect guard left, or open for RabbitMQ once a row was sent. When a connect fails, the states before it are unchanged. |
| DbConnect.DbConnector.ExportQueryToKafka | tracemyflow/flowtracer/workflow/services/connectors/db_connector.py:524-608 | The count is the number of result rows, transformed when a transform is given, whether or not each send is delivered. The topic gains the delivered messages. For PostgreSQL, a row shorter than its columns raises: the rows before it stay sent and the count is 0. On a connect failure it returns 0. Afterwards the database is connected, and its open transaction holds the query unless it raised. A Kafka connector that had a producer is unchanged. One that connected here has new clients, no subscription and position 0. When a connect fails, the states before it are unchanged. |
| Factory.KindOf | tracemyflow/flowtracer/workflow/services/connectors/connector_factory.py:29-37 | `kafka`, `mq` and `db` are recognised after lower-casing, each iff the lower-cased type is that name. |
| Factory.KindCaseInsensitive | tracemyflow/flowtracer/workflow/services/connectors/connector_factory.py:29 | The dispatch ignores case. |
| Factory.Created | tracemyflow/flowtracer/workflow/services/connectors/connector_factory.py:17-40 | A connector is made iff the type is recognised and its constructor accepts the config, and it is of that kind. |
| Factory.UnsupportedMakesNothing | tracemyflow/flowtracer/workflow/services/connectors/connector_factory.py:35-37 | Any other type string yields nothing. |
| Factory.NonDictMakesNothing | tracemyflow/flowtracer/workflow/services/connectors/connector_factory.py:38-40 | A config that is not a dict makes every constructor raise, so it yields nothing. |
| Factory.NonStringTypeMakesNothing | tracemyflow/flowtracer/workflow/services/connectors/connector_factory.py:38-40 | A non-string `mq_type` or `db_type` makes `.lower()` raise, so it yields nothing. |
| Factory.KafkaFromAnyDict | tracemyflow/flowtracer/workflow/services/connectors/connector_factory.py:29-30 | `kafka` with any dict yields a Kafka connector. |
| Factory.CreateConnector | tracemyflow/flowtracer/workflow/services/connectors/connector_factory.py:17-40 | It returns a connector iff one is created, of the created kind, freshly built from the config. |
| Factory.CreateKafkaConnector | tracemyflow/flowtracer/workflow/services/connectors/connector_factory.py:43-46 | `create_connector('kafka', config)`. |
| Factory.CreateMqConnector | tracemyflow/flowtracer/workflow/services/connectors/connector_factory.py:48-51 | `create_connector('mq', config)`. |
| Factory.CreateDbConnector | tracemyflow/flowtracer/workflow/services/connectors/connector_factory.py:53-54 | `create_connector('db', config)`. |
| YamlExport.StrategyEntry | tracemyflow/flowtracer/workflow/services/yaml_generator.py:48-57 | Every entry has type, retries and delay. `backoff_factor` appears iff the strategy is exponential, and `custom_logic` iff it is custom. |
| YamlExport.ComponentEntry | tracemyflow/flowtracer/workflow/services/yaml_generator.py:35-59 | It copies id (as a string), name, type, order and config. `retry_strategies` appears iff there is a strategy, with one entry per strategy. |
| YamlExport.ConnectionEntry | tracemyflow/flowtracer/workflow/services/yaml_generator.py:69-84 | It holds exactly the keys id, type, source, target and config. |
| YamlExport.NatToStringRoundTrip | tracemyflow/flowtracer/workflow/services/yaml_generator.py:36 | The decimal id reads back as the same number. |
| YamlExport.StrategyRoundTrip | tracemyflow/flowtracer/workflow/services/yaml_generator.py:48-57 | Parsing an entry gives back the strategy, up to the fields the entry leaves out for its type. |
| YamlExport.StrategyEntryInjective | tracemyflow/flowtracer/workflow/services/yaml_generator.py:48-57 | Two strategies have the same entry iff they agree on the exported fields. |
| YamlExport.StrategiesRoundTrip | tracemyflow/flowtracer/workflow/services/yaml_generator.py:44-59 | The strategy list parses back entry for entry. |
| YamlExport.ComponentRoundTrip | tracemyflow/flowtracer/workflow/services/yaml_generator.py:35-59 | A component entry parses back to the component. |
| YamlExport.ComponentsRoundTrip | tracemyflow/flowtracer/workflow/services/yaml_generator.py:30-63 | The component list reads back, entry for entry, in order. |
| YamlExport.ConnectionRoundTrip | tracemyflow/flowtracer/workflow/services/yaml_generator.py:69-84 | A connection entry reads back as the connection's id, type, config and the ids and names of its endpoints. |
| YamlExport.ConnectionEntryInjective | tracemyflow/flowtracer/workflow/services/yaml_generator.py:69-84 | Two connections export alike iff they agree on id, type, config and the endpoints' ids and names. |
| YamlExport.ConnectionsRoundTrip | tracemyflow/flowtracer/workflow/services/yaml_generator.py:65-86 | The connection list reads back, entry for entry, in order. |
| YamlExport.ValidationModeRoundTrip | tracemyflow/flowtracer/workflow/services/yaml_generator.py:22 | The exported validation mode reads back as the mode. |
| YamlExport.WorkflowFieldsRead | tracemyflow/flowtracer/workflow/services/yaml_generator.py:16-26 | The `workflow` dict holds exactly the seven keys and reads back as its fields whenever its two lists do. |
| YamlExport.DocumentRoundTrip | tracemyflow/flowtracer/workflow/services/yaml_generator.py:14-28 | The tree reads back as the workflow's id, name, description, creator and validation mode, its components (strategies up to unused settings) and its connections' exported parts, in order. |
| YamlExport.WorkflowYamlGenerator.GenerateYaml | tracemyflow/flowtracer/workflow/services/yaml_generator.py:14-28 | It returns the document of the workflow, its ordered components and its connections. |
| YamlExport.WorkflowYamlGenerator.GenerateComponentsYaml | tracemyflow/flowtracer/workflow/services/yaml_generator.py:30-63 | The loop yields one entry per component, in order. |
| YamlExport.WorkflowYamlGenerator.GenerateConnectionsYaml | tracemyflow/flowtracer/workflow/services/yaml_generator.py:65-86 | The loop yields one entry per connection, in order. |

## Left out

- MqConnect.MqConnector.ReceiveMessages: the ActiveMQ branch (mq_connector.py:362-394) uses a listener thread, a queue and wall-clock timeouts, so it involves concurrency and time. The method requires a RabbitMQ or IBM MQ connector.
- MqConnect.MqConnector.ReplayQueueToQueue: it receives through that branch, so it also requires a RabbitMQ or IBM MQ connector.
- MqConnect.MqConnector.ReplayQueueToKafka: likewise, it requires a RabbitMQ or IBM MQ connector.
- Client libraries (pika, stomp, pymqi, kafka-python, the SQL drivers), the `_connect_*` methods and `table_exists` are foreign calls. The broker, cluster and database are abstract in-memory peers with outcome oracles.
- Kafka disconnect, `create_topic` and `delete_topic` are admin calls into the client library and are not part of this model.
- Pika's `BasicProperties`, delivery tags and acknowledgements are not modelled. The properties are a plain map of the copied keys.
- Kafka partitions, offsets and timeouts are not modelled. A topic is one log, and each poll returns records from the consumer's position onward.
- JSON and YAML encoding, `yaml.dump` and the file I/O of `save_yaml_to_file`/`load_yaml_from_file` are not modelled. A message body is a JSON value or a raw string, and a document is a `Value` tree.
- Dict key order is not modelled: maps are unordered.
- Persistence (`objects.get`, `filter`, `save`, integrity constraints) is not modelled. The status rows are a map keyed by (execution, component).
  - The component ids are distinct.
  - A new row's key must be unused: a map cannot hold the duplicate rows `create` would make. This is stated as a precondition.
- `time.sleep` and `timezone.now` are not modelled. Each top-level call takes one opaque timestamp, and the requested waits are a ghost sequence.
- The simulated component bodies (workflow_executor.py:165-196) are replaced by an attempt-outcome oracle. Their own log lines are left out.
- `backoff_factor` is a `real`, with no IEEE rounding.
- Python's `str.lower` and `str.isspace` are modelled for ASCII only.
- Filter and transform callbacks cannot raise in this model. An exception from them is not modelled.
- `order_by('order')` is modelled as a stable sort. The database's order among equal `order` values is left open.
- MqConnect.MqConnector.ReplayQueueToQueue: requires the source and target queues to differ. Replaying a queue into itself does not terminate without a limit.
- KafkaConnect.KafkaConnector.ReplayTopicToTopic: requires the source and target topics to differ, for the same reason.
- KafkaConnect.KafkaConnector.ReplayTopicToTopic: `seek_to_beginning()` right after `subscribe` (kafka_connector.py:211-216) is modelled as moving to the start of the log. The client asserts that partitions are assigned, and a new subscription has none before its first poll, so the code probably returns 0 there. Partition assignment is not modelled.
- KafkaConnect.ResetPosition: an `auto_offset_reset` other than `earliest`, `latest`, `smallest` or `largest` is read as `earliest`. The client rejects such values, and that is not modelled.
- `DbConnect.DbConnector.Rollback`: a rollback whose driver call fails is not modelled. A rollback always discards the pending statements.
- DbConnect.DbConnector.BeginTransaction: whether the MySQL and Oracle drivers' `begin()` succeeds is one flag of the database (`Database.beginFails`). The drivers' own method sets are not modelled further.
- DbConnect.DbConnector.ExecuteBatch: the same flag decides whether the MySQL and Oracle begin succeeds.
- DbConnect.DbConnector.ExportQueryToKafka: PostgreSQL's server-side cursor rows are modelled as a table of value rows, fetched all at once instead of in `batch_size` chunks.
- DbConnect.DbConnector.ExportQueryToKafka: the model takes the column names from the result table. The code reads the named cursor's `description` right after `execute` (db_connector.py:557-564), which psycopg2 may leave `None` until the first fetch. The PostgreSQL branch would then raise and return 0.

## Findings

| source | as written | input that shows it | evidently intended | confidence | as-written member | corrected member |
|---|---|---|---|---|---|---|
| tracemyflow/flowtracer/workflow/services/workflow_executor.py:143-147 (also sub_workflow_executor.py:207-212) | Under required validation, the exception a failed component raises skips `completed_at` and the final `save()`. The persisted row stays `running`, with the `started_at` of the first save. | A component with no retry strategy whose body always raises, in an execution with validation enabled and mode `required`. | The row is saved as `failed`, with its retry count, error and `completed_at`, before the run aborts. | not executed | RunEngine.AbortLeavesRowRunning | RunEngine.ExecuteComponent |
| tracemyflow/flowtracer/workflow/services/connectors/db_connector.py:331 | `execute_batch` calls `self.connection.begin()` for every database type. psycopg2, sqlite3 and pyodbc connections have no `begin`, so on PostgreSQL, SQLite and SQL Server every batch raises `AttributeError`, rolls back and returns 0. | A SQLite database and one parameter dict whose statement succeeds and counts one row. | The batch runs in the transaction the driver opens itself: it commits every statement and returns the sum of the row counts. | not executed | DbConnect.BatchAsWrittenRollsBack | DbConnect.DbConnector.ExecuteBatch |
