/**
 * `WorkflowExecutor`: a full run of a workflow, and the re-execution of one
 * component of an earlier run.
 */
module WorkflowRun {
  import opened Wrappers
  import opened Models
  import opened Ordering
  import opened RetryPolicy
  import opened RunEngine

  function StartMessage(workflowName: string, executionId: string): string {
    "Starting workflow execution: " + workflowName + " (ID: " + executionId + ")"
  }

  /** The last line a full run logs. */
  function EndMessage(workflowName: string, failure: Option<string>, allCompleted: bool): string {
    match failure
    case Some(e) => "Workflow execution failed: " + e
    case None =>
      if allCompleted then "Workflow execution completed successfully: " + workflowName
      else "Workflow execution partially completed: " + workflowName
  }

  class WorkflowExecutor {
    const execution: Execution
    const workflow: WorkflowDefinition
    const components: seq<Component>
    const store: StatusTable

    /** `__init__`: the workflow's components, in ascending `order`. */
    constructor (execution: Execution, workflow: WorkflowDefinition, workflowComponents: seq<Component>, store: StatusTable)
      ensures this.execution == execution && this.workflow == workflow && this.store == store
      ensures components == SortByOrder(workflowComponents)
    {
      this.execution := execution;
      this.workflow := workflow;
      this.store := store;
      components := SortByOrder(workflowComponents);
    }

    /** A failed component stops the run only when validation is enabled and required. */
    predicate AbortOnFailure() {
      execution.validationEnabled && workflow.validationMode == Required
    }

    function PassOf(body: (nat, nat) -> Outcome, now: Timestamp): Pass {
      Pass(Some(execution.id), body, AbortOnFailure(), now)
    }

    /** `_initialize_component_statuses`: one new `pending` row per component. */
    method InitializeComponentStatuses()
      requires DistinctIds(components)
      requires forall i :: 0 <= i < |components| ==> StatusKey(Some(execution.id), components[i].id) !in store.records
      modifies store`records
      ensures store.records == InitStatuses(old(store.records), Some(execution.id), components)
    {
      var i := 0;
      while i < |components|
        invariant 0 <= i <= |components|
        invariant store.records == InitStatuses(old(store.records), Some(execution.id), components[..i])
      {
        assert components[..i + 1][..i] == components[..i];
        store.records := store.records[StatusKey(Some(execution.id), components[i].id) := PendingRecord];
        i := i + 1;
      }
      assert components[..i] == components;
    }

    /** `_check_all_components_completed`: every row of this run is `completed`. */
    method CheckAllComponentsCompleted() returns (allCompleted: bool)
      ensures allCompleted == AllCompleted(store.records, Some(execution.id))
    {
      allCompleted := AllCompleted(store.records, Some(execution.id));
    }

    /** The pass `execute` makes, from the table and the log it starts with. */
    ghost function RunOf(records0: map<StatusKey, StatusRecord>, log0: string, body: (nat, nat) -> Outcome, now: Timestamp): Progress {
      RunComponents(Progress(InitStatuses(records0, Some(execution.id), components),
                             log0 + LogEntry(now, StartMessage(workflow.name, execution.id)), [], None),
                    PassOf(body, now), components)
    }

    /**
     * `execute`: mark the run running, create the rows, execute the
     * components in order until one aborts the run, then set the final
     * status, log it and stamp `completed_at`.
     */
    method Execute(body: (nat, nat) -> Outcome, now: Timestamp) returns (status: RunStatus, ghost waits: seq<real>)
      requires DistinctIds(components)
      requires forall k :: k in store.records ==> k.execution != Some(execution.id)
      modifies execution, store
      ensures store.records == RunOf(old(store.records), old(execution.executionLog), body, now).records
      ensures var r := RunOf(old(store.records), old(execution.executionLog), body, now);
        status == execution.status == FinalStatus(r, AllCompleted(store.records, Some(execution.id)))
      ensures var r := RunOf(old(store.records), old(execution.executionLog), body, now);
        execution.executionLog == r.log + LogEntry(now, EndMessage(workflow.name, r.aborted, AllCompleted(store.records, Some(execution.id))))
      ensures execution.completedAt == Some(now)
      ensures waits == RunOf(old(store.records), old(execution.executionLog), body, now).waits
    {
      ghost var records0, log0 := store.records, execution.executionLog;
      execution.status := RunStatus.Running;
      execution.Log(now, StartMessage(workflow.name, execution.id));
      InitializeComponentStatuses();
      var failure;
      failure, waits := ExecutePass(execution, store, PassOf(body, now), components);
      ghost var r := RunOf(records0, log0, body, now);
      assert Progress(store.records, execution.executionLog, waits, failure) == r;
      status := Finish(failure, now, r);
    }

    /** The end of `execute`: the final status from the pass's outcome and the run's rows, its log line and `completed_at`. */
    method Finish(failure: Option<string>, now: Timestamp, ghost r: Progress) returns (status: RunStatus)
      requires r.aborted == failure
      modifies execution
      ensures status == execution.status == FinalStatus(r, AllCompleted(store.records, Some(execution.id)))
      ensures execution.executionLog == old(execution.executionLog) + LogEntry(now, EndMessage(workflow.name, r.aborted,
                                                                                             AllCompleted(store.records, Some(execution.id))))
      ensures execution.completedAt == Some(now)
    {
      var allCompleted := CheckAllComponentsCompleted();
      if failure.None? {
        if allCompleted {
          execution.status := RunStatus.Completed;
        } else {
          execution.status := RunStatus.PartiallyCompleted;
        }
      } else {
        execution.status := RunStatus.Failed;
      }
      execution.Log(now, EndMessage(workflow.name, failure, allCompleted));
      execution.completedAt := Some(now);
      status := execution.status;
    }

    /**
     * `execute_sub_workflow`: get or create the row of `c` in this run and
     * execute that component alone. The abort exception is not caught here;
     * it propagates to the caller as `Failure`.
     */
    method ExecuteSubWorkflow(c: Component, body: (nat, nat) -> Outcome, now: Timestamp)
      returns (result: Result<ComponentState>, ghost waits: seq<real>)
      modifies execution`executionLog, store`records
      ensures var key := StatusKey(Some(execution.id), c.id);
        var rec0 := if key in old(store.records) then old(store.records[key]) else PendingRecord;
        var t := ComponentTrace(c, body);
        && store.records == old(store.records)[key := Finished(rec0, t, now)]
        && execution.executionLog == old(execution.executionLog) + ComponentLog(c, t, now)
        && result == (if !t.succeeded && AbortOnFailure() then Failure(AbortMessage(c))
                      else Success(Finished(rec0, t, now).status))
        && waits == t.waits
    {
      var key := StatusKey(Some(execution.id), c.id);
      if key !in store.records {
        store.records := store.records[key := PendingRecord];
      }
      var aborted;
      aborted, waits := ExecuteComponent(execution, store, key, c, body, AbortOnFailure(), now);
      if aborted {
        result := Failure(AbortMessage(c));
      } else {
        result := Success(store.records[key].status);
      }
    }
  }
}
