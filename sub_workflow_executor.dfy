/**
 * `SubWorkflowExecutor`: a run over the window of components between two
 * boundary components, reusing the parent run's status rows when there is a
 * parent run.
 */
module SubWorkflowRun {
  import opened Wrappers
  import opened Models
  import opened Ordering
  import opened RangeSelector
  import opened RetryPolicy
  import opened RunEngine

  /** The boundaries a sub-run's settings give. */
  function BoundsOf(settings: SubRunSettings): Bounds {
    Bounds(settings.start, settings.end, settings.includeStart, settings.includeEnd)
  }

  /** `(From: start To: end)`, with the boundaries after normalization. */
  function RangeText(b: Bounds): string {
    "(From: " + b.start.name + " To: " + b.end.name + ")"
  }

  function StartMessage(workflowName: string, b: Bounds): string {
    "Starting sub-workflow execution: " + workflowName + " " + RangeText(b)
  }

  /** The last line a sub-run logs. */
  function EndMessage(workflowName: string, b: Bounds, failure: Option<string>, allCompleted: bool): string {
    match failure
    case Some(e) => "Sub-workflow execution failed: " + e
    case None =>
      if allCompleted then "Sub-workflow execution completed successfully: " + workflowName + " " + RangeText(b)
      else "Sub-workflow execution partially completed: " + workflowName + " " + RangeText(b)
  }

  /**
   * `_check_all_components_completed`: every row of a window component is
   * `completed`, counting only the parent run's rows when there is a parent
   * and the rows of every run otherwise.
   */
  predicate WindowCompleted(records: map<StatusKey, StatusRecord>, parent: Option<string>, cs: seq<Component>) {
    forall k :: k in records && k.component in IdsOf(cs) && (parent.Some? ==> k.execution == parent)
      ==> records[k].status == ComponentState.Completed
  }

  /**
   * With a parent run, a sub-run that does not abort ends with every window
   * row `completed` exactly when every window component succeeded within its
   * attempts, whatever the rows outside the window hold.
   */
  lemma ParentRunCompletedIff(records0: map<StatusKey, StatusRecord>, log: string, ps: Pass, cs: seq<Component>)
    requires ps.exec.Some? && DistinctIds(cs)
    ensures var r := RunComponents(Progress(InitStatuses(records0, ps.exec, cs), log, [], None), ps, cs);
      r.aborted.None? ==>
        (WindowCompleted(r.records, ps.exec, cs) <==> forall i :: 0 <= i < |cs| ==> ComponentTrace(cs[i], ps.body).succeeded)
  {
    var r := RunComponents(Progress(InitStatuses(records0, ps.exec, cs), log, [], None), ps, cs);
    PassStatuses(records0, log, ps, cs);
    if r.aborted.None? {
      if WindowCompleted(r.records, ps.exec, cs) {
        forall i | 0 <= i < |cs| ensures ComponentTrace(cs[i], ps.body).succeeded {
          var key := StatusKey(ps.exec, cs[i].id);
          assert key in KeysOf(ps.exec, cs) && key.component in IdsOf(cs);
        }
      }
      if forall i :: 0 <= i < |cs| ==> ComponentTrace(cs[i], ps.body).succeeded {
        forall k | k in r.records && k.component in IdsOf(cs) && k.execution == ps.exec
          ensures r.records[k].status == ComponentState.Completed
        {
          var i :| 0 <= i < |cs| && k.component == cs[i].id;
          assert k == StatusKey(ps.exec, cs[i].id);
        }
      }
    }
  }

  /**
   * Without a parent run, the rows of the window components that other runs
   * own count as well: a sub-run that does not abort is `completed` exactly
   * when every window component succeeded and every such foreign row is
   * `completed` too.
   */
  lemma StandaloneRunCompletedIff(records0: map<StatusKey, StatusRecord>, log: string, ps: Pass, cs: seq<Component>)
    requires ps.exec.None? && DistinctIds(cs)
    ensures var r := RunComponents(Progress(InitStatuses(records0, ps.exec, cs), log, [], None), ps, cs);
      r.aborted.None? ==>
        (WindowCompleted(r.records, None, cs) <==>
           (forall i :: 0 <= i < |cs| ==> ComponentTrace(cs[i], ps.body).succeeded)
           && (forall k :: k in records0 && k.component in IdsOf(cs) && k.execution.Some?
                 ==> records0[k].status == ComponentState.Completed))
  {
    var r := RunComponents(Progress(InitStatuses(records0, ps.exec, cs), log, [], None), ps, cs);
    PassStatuses(records0, log, ps, cs);
    if r.aborted.None? {
      if WindowCompleted(r.records, None, cs) {
        forall i | 0 <= i < |cs| ensures ComponentTrace(cs[i], ps.body).succeeded {
          var key := StatusKey(None, cs[i].id);
          assert key in KeysOf(None, cs) && key.component in IdsOf(cs);
        }
        forall k | k in records0 && k.component in IdsOf(cs) && k.execution.Some?
          ensures records0[k].status == ComponentState.Completed
        {
          assert k !in KeysOf(None, cs);
        }
      }
      if && (forall i :: 0 <= i < |cs| ==> ComponentTrace(cs[i], ps.body).succeeded)
         && (forall k :: k in records0 && k.component in IdsOf(cs) && k.execution.Some?
               ==> records0[k].status == ComponentState.Completed)
      {
        forall k | k in r.records && k.component in IdsOf(cs)
          ensures r.records[k].status == ComponentState.Completed
        {
          var i :| 0 <= i < |cs| && k.component == cs[i].id;
          if k.execution.None? {
            assert k == StatusKey(None, cs[i].id);
          } else {
            assert k !in KeysOf(None, cs);
          }
        }
      }
    }
  }

  class SubWorkflowExecutor {
    /** The `SubWorkflowExecution` row's run columns. */
    const run: Execution
    const workflow: WorkflowDefinition
    const settings: SubRunSettings
    /** The boundaries after `_get_components_in_path` has put them in order. */
    const bounds: Bounds
    const components: seq<Component>
    const store: StatusTable

    /** `__init__`: normalize the boundaries and select the window of the workflow's ordered components. */
    constructor (run: Execution, workflow: WorkflowDefinition, settings: SubRunSettings,
                 workflowComponents: seq<Component>, store: StatusTable)
      ensures this.run == run && this.workflow == workflow && this.settings == settings && this.store == store
      ensures bounds == Normalize(BoundsOf(settings))
      ensures components == SelectComponents(SortByOrder(workflowComponents), BoundsOf(settings))
    {
      this.run := run;
      this.workflow := workflow;
      this.settings := settings;
      this.store := store;
      bounds := Normalize(BoundsOf(settings));
      components := SelectComponents(SortByOrder(workflowComponents), BoundsOf(settings));
    }

    predicate AbortOnFailure() {
      run.validationEnabled && workflow.validationMode == Required
    }

    function PassOf(body: (nat, nat) -> Outcome, now: Timestamp): Pass {
      Pass(settings.parent, body, AbortOnFailure(), now)
    }

    /**
     * `_initialize_component_statuses`: with a parent run, reset the parent's
     * row of each window component to `pending` (creating it when missing);
     * without one, create a new row per window component.
     */
    method InitializeComponentStatuses()
      requires settings.parent.None? ==>
        DistinctIds(components) && forall i :: 0 <= i < |components| ==> StatusKey(None, components[i].id) !in store.records
      modifies store`records
      ensures store.records == InitStatuses(old(store.records), settings.parent, components)
    {
      var i := 0;
      while i < |components|
        invariant 0 <= i <= |components|
        invariant store.records == InitStatuses(old(store.records), settings.parent, components[..i])
      {
        assert components[..i + 1][..i] == components[..i];
        var key := StatusKey(settings.parent, components[i].id);
        if settings.parent.Some? && key in store.records {
          var status := store.records[key];
          status := status.(status := ComponentState.Pending, startedAt := None, completedAt := None,
                            retryCount := 0, errorMessage := "");
          store.records := store.records[key := status];
        } else {
          store.records := store.records[key := PendingRecord];
        }
        i := i + 1;
      }
      assert components[..i] == components;
    }

    /** `_check_all_components_completed`: the window's rows in scope are all `completed`. */
    method CheckAllComponentsCompleted() returns (allCompleted: bool)
      ensures allCompleted == WindowCompleted(store.records, settings.parent, components)
    {
      allCompleted := WindowCompleted(store.records, settings.parent, components);
    }

    /** The pass `execute` makes, from the table and the log it starts with. */
    ghost function RunOf(records0: map<StatusKey, StatusRecord>, log0: string, body: (nat, nat) -> Outcome, now: Timestamp): Progress {
      RunComponents(Progress(InitStatuses(records0, settings.parent, components),
                             log0 + LogEntry(now, StartMessage(workflow.name, bounds)), [], None),
                    PassOf(body, now), components)
    }

    /**
     * `execute`: mark the sub-run running, prepare the window's rows,
     * execute the window in order until a component aborts it, then set the
     * final status, log it and stamp `completed_at`.
     */
    method Execute(body: (nat, nat) -> Outcome, now: Timestamp) returns (status: RunStatus, ghost waits: seq<real>)
      requires settings.parent.None? ==>
        DistinctIds(components) && forall i :: 0 <= i < |components| ==> StatusKey(None, components[i].id) !in store.records
      modifies run, store
      ensures store.records == RunOf(old(store.records), old(run.executionLog), body, now).records
      ensures var r := RunOf(old(store.records), old(run.executionLog), body, now);
        status == run.status == FinalStatus(r, WindowCompleted(store.records, settings.parent, components))
      ensures var r := RunOf(old(store.records), old(run.executionLog), body, now);
        run.executionLog == r.log + LogEntry(now, EndMessage(workflow.name, bounds, r.aborted,
                                                             WindowCompleted(store.records, settings.parent, components)))
      ensures run.completedAt == Some(now)
      ensures waits == RunOf(old(store.records), old(run.executionLog), body, now).waits
    {
      ghost var records0, log0 := store.records, run.executionLog;
      run.status := RunStatus.Running;
      run.Log(now, StartMessage(workflow.name, bounds));
      InitializeComponentStatuses();
      var failure;
      failure, waits := ExecutePass(run, store, PassOf(body, now), components);
      ghost var r := RunOf(records0, log0, body, now);
      assert Progress(store.records, run.executionLog, waits, failure) == r;
      status := Finish(failure, now, r);
    }

    /** The end of `execute`: the final status from the pass's outcome and the window's rows, its log line and `completed_at`. */
    method Finish(failure: Option<string>, now: Timestamp, ghost r: Progress) returns (status: RunStatus)
      requires r.aborted == failure
      modifies run
      ensures status == run.status == FinalStatus(r, WindowCompleted(store.records, settings.parent, components))
      ensures run.executionLog == old(run.executionLog) + LogEntry(now, EndMessage(workflow.name, bounds, r.aborted,
                                                                                 WindowCompleted(store.records, settings.parent, components)))
      ensures run.completedAt == Some(now)
    {
      var allCompleted := CheckAllComponentsCompleted();
      if failure.None? {
        if allCompleted {
          run.status := RunStatus.Completed;
        } else {
          run.status := RunStatus.PartiallyCompleted;
        }
      } else {
        run.status := RunStatus.Failed;
      }
      run.Log(now, EndMessage(workflow.name, bounds, failure, allCompleted));
      run.completedAt := Some(now);
      status := run.status;
    }
  }
}
