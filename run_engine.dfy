/**
 * What the full run and the sub-run share: the attempt loop of
 * `_execute_component` (as a method over a run's log and the status table)
 * and the specification of a pass over an ordered list of components.
 */
module RunEngine {
  import opened Wrappers
  import opened Values
  import opened Models
  import opened RetryPolicy

  /** The outcome oracle of one component within one call: attempt `k` of component `c` did `body(c.id, k)`. */
  function Outcomes(c: Component, body: (nat, nat) -> Outcome): nat -> Outcome {
    (k: nat) => body(c.id, k)
  }

  /** The attempts `_execute_component` makes for `c`. */
  function ComponentTrace(c: Component, body: (nat, nat) -> Outcome): Trace {
    Attempts(PolicyOf(c.retryStrategies), Outcomes(c, body))
  }

  function ExecutingMessage(c: Component): string {
    "Executing component: " + c.name + " (Type: " + c.componentType.Name() + ")"
  }

  function EventMessage(c: Component, maxRetries: nat, e: Event): string {
    match e
    case Done => "Component executed successfully: " + c.name
    case Retrying(r, err) =>
      "Component execution failed, retrying (" + NatToString(r) + "/" + NatToString(maxRetries) + "): "
      + c.name + ", Error: " + err
    case GaveUp(err) =>
      "Component execution failed after " + NatToString(maxRetries) + " retries: " + c.name + ", Error: " + err
  }

  /** The log lines of a sequence of attempt events. */
  function EventsLog(c: Component, maxRetries: nat, events: seq<Event>, now: Timestamp): string
    decreases |events|
  {
    if |events| == 0 then ""
    else EventsLog(c, maxRetries, events[..|events| - 1], now) + LogEntry(now, EventMessage(c, maxRetries, events[|events| - 1]))
  }

  /** Everything `_execute_component` appends to the run's log. */
  function ComponentLog(c: Component, t: Trace, now: Timestamp): string {
    LogEntry(now, ExecutingMessage(c)) + EventsLog(c, PolicyOf(c.retryStrategies).maxRetries, t.events, now)
  }

  /**
   * The in-memory row after the attempts: `completed` or `failed`,
   * `retry_count` the number of failed attempts (left alone when none
   * failed) and the last error on failure.
   */
  function Attempted(rec: StatusRecord, t: Trace): StatusRecord {
    rec.(status := if t.succeeded then ComponentState.Completed else ComponentState.Failed,
         retryCount := if t.failures > 0 then t.failures else rec.retryCount,
         errorMessage := if t.succeeded then rec.errorMessage else t.lastError)
  }

  /** The status row once `_execute_component` has saved it: attempted, with both timestamps set. */
  function Finished(rec0: StatusRecord, t: Trace, now: Timestamp): StatusRecord {
    Attempted(rec0, t).(startedAt := Some(now), completedAt := Some(now))
  }

  /**
   * The row as the table holds it after `_execute_component` as written: when
   * the validation exception escapes, only the save made before the attempts
   * took effect.
   */
  function PersistedAsWritten(rec0: StatusRecord, t: Trace, now: Timestamp, abortOnFailure: bool): StatusRecord {
    if !t.succeeded && abortOnFailure then rec0.(status := ComponentState.Running, startedAt := Some(now))
    else Finished(rec0, t, now)
  }

  /**
   * A saved row is terminal; it is `completed` exactly when some attempt
   * within the budget succeeded, and a component that used up its attempts
   * records `max_retries + 1` failures and the last error.
   */
  lemma ComponentOutcome(rec0: StatusRecord, c: Component, body: (nat, nat) -> Outcome, now: Timestamp)
    ensures var p := PolicyOf(c.retryStrategies);
      var r := Finished(rec0, ComponentTrace(c, body), now);
      && (r.status == ComponentState.Completed || r.status == ComponentState.Failed)
      && (r.status == ComponentState.Completed <==> exists i :: 0 <= i <= p.maxRetries && body(c.id, i) == Succeeded)
      && (r.status == ComponentState.Failed ==>
            r.retryCount == p.maxRetries + 1 && r.errorMessage == body(c.id, p.maxRetries).error)
      && r.startedAt == Some(now) && r.completedAt == Some(now)
  {
    var p := PolicyOf(c.retryStrategies);
    var o := Outcomes(c, body);
    SucceedsIffSomeAttemptSucceeds(p, o);
    AttemptsFromShape(p, o, 0, p.initialDelay);
    var t := ComponentTrace(c, body);
    if t.succeeded {
      var i :| 0 <= i <= p.maxRetries && o(i) == Succeeded;
      assert body(c.id, i) == Succeeded;
    } else {
      forall i | 0 <= i <= p.maxRetries ensures body(c.id, i) != Succeeded {
        assert o(i) != Succeeded;
      }
      assert o(p.maxRetries) == body(c.id, p.maxRetries);
    }
  }

  /**
   * As written, a component that exhausts its attempts under required
   * validation stays `running` in the table although the run fails; the
   * saved row the code evidently meant to keep is `failed`.
   */
  lemma AbortLeavesRowRunning(rec0: StatusRecord, c: Component, now: Timestamp)
    requires c.retryStrategies == []
    ensures var body := (i: nat, k: nat) => Raised("boom");
      var t := ComponentTrace(c, body);
      && PersistedAsWritten(rec0, t, now, true).status == ComponentState.Running
      && Finished(rec0, t, now).status == ComponentState.Failed
  {
    var body := (i: nat, k: nat) => Raised("boom");
    NoStrategySingleAttempt(Outcomes(c, body));
  }

  /** The keys of the rows a pass over `cs` uses. */
  function KeysOf(exec: Option<string>, cs: seq<Component>): set<StatusKey> {
    set i | 0 <= i < |cs| :: StatusKey(exec, cs[i].id)
  }

  /** The ids of the components in `cs`. */
  function IdsOf(cs: seq<Component>): set<nat> {
    set i | 0 <= i < |cs| :: cs[i].id
  }

  /** Components loaded from the table have distinct primary keys. */
  predicate DistinctIds(cs: seq<Component>) {
    forall i, j :: 0 <= i < |cs| && 0 <= j < |cs| && cs[i].id == cs[j].id ==> i == j
  }

  lemma KeysOfSnoc(exec: Option<string>, cs: seq<Component>)
    requires |cs| > 0
    ensures KeysOf(exec, cs) == KeysOf(exec, cs[..|cs| - 1]) + {StatusKey(exec, cs[|cs| - 1].id)}
  {
    var n := |cs| - 1;
    forall k | k in KeysOf(exec, cs) ensures k in KeysOf(exec, cs[..n]) + {StatusKey(exec, cs[n].id)} {
      var i :| 0 <= i < |cs| && k == StatusKey(exec, cs[i].id);
      if i < n {
        assert cs[..n][i] == cs[i];
      }
    }
    forall k | k in KeysOf(exec, cs[..n]) ensures k in KeysOf(exec, cs) {
      var i :| 0 <= i < n && k == StatusKey(exec, cs[..n][i].id);
      assert cs[..n][i] == cs[i];
    }
  }

  /**
   * The status rows after the init loop of a run: exactly one `pending` row
   * per component (freshly created, or an existing row reset in place), every
   * other row as it was.
   */
  function InitStatuses(records: map<StatusKey, StatusRecord>, exec: Option<string>, cs: seq<Component>)
    : (r: map<StatusKey, StatusRecord>)
    ensures r.Keys == records.Keys + KeysOf(exec, cs)
    ensures forall k :: k in KeysOf(exec, cs) ==> r[k] == PendingRecord
    ensures forall k :: k in records && k !in KeysOf(exec, cs) ==> r[k] == records[k]
    decreases |cs|
  {
    if |cs| == 0 then records
    else
      KeysOfSnoc(exec, cs);
      InitStatuses(records, exec, cs[..|cs| - 1])[StatusKey(exec, cs[|cs| - 1].id) := PendingRecord]
  }

  /** What a pass is run with: the run whose rows it uses, the outcome oracle, the abort rule and the clock. */
  datatype Pass = Pass(exec: Option<string>, body: (nat, nat) -> Outcome, abortOnFailure: bool, now: Timestamp)

  /**
   * The state a pass threads through the components: the rows, the log, the
   * waits and, once the pass has been cut short, the text of the exception.
   */
  datatype Progress = Progress(records: map<StatusKey, StatusRecord>, log: string, waits: seq<real>, aborted: Option<string>)

  /** `c` makes the pass abort: it used up its attempts and validation is required. */
  predicate Aborts(ps: Pass, c: Component) {
    ps.abortOnFailure && !ComponentTrace(c, ps.body).succeeded
  }

  /** The exception `_execute_component` raises on an abort. */
  function AbortMessage(c: Component): string {
    "Component " + c.name + " failed and validation is required"
  }

  /** The exception `objects.get` raises when the row is missing. */
  const MissingRowMessage: string := "ComponentExecutionStatus matching query does not exist."

  /** One iteration of the component loop: fetch the row, execute; once cut short, nothing more happens. */
  function Step(pr: Progress, ps: Pass, c: Component): (r: Progress)
    ensures r.records.Keys == pr.records.Keys
  {
    var key := StatusKey(ps.exec, c.id);
    if pr.aborted.Some? then pr
    else if key !in pr.records then pr.(aborted := Some(MissingRowMessage))
    else
      var t := ComponentTrace(c, ps.body);
      Progress(pr.records[key := Finished(pr.records[key], t, ps.now)],
               pr.log + ComponentLog(c, t, ps.now),
               pr.waits + t.waits,
               if Aborts(ps, c) then Some(AbortMessage(c)) else None)
  }

  /** The component loop over `cs`, in order. */
  function RunComponents(pr: Progress, ps: Pass, cs: seq<Component>): (r: Progress)
    ensures r.records.Keys == pr.records.Keys
    decreases |cs|
  {
    if |cs| == 0 then pr
    else Step(RunComponents(pr, ps, cs[..|cs| - 1]), ps, cs[|cs| - 1])
  }

  /** A `Step` that finds the row executes the component and saves the row. */
  lemma StepExecutes(pr: Progress, ps: Pass, c: Component)
    requires pr.aborted.None? && StatusKey(ps.exec, c.id) in pr.records
    ensures var key := StatusKey(ps.exec, c.id);
      var t := ComponentTrace(c, ps.body);
      Step(pr, ps, c) == Progress(pr.records[key := Finished(pr.records[key], t, ps.now)],
                                  pr.log + ComponentLog(c, t, ps.now), pr.waits + t.waits,
                                  if Aborts(ps, c) then Some(AbortMessage(c)) else None)
  {
  }

  /** One more component of `cs` is one more `Step`. */
  lemma RunSnoc(pr: Progress, ps: Pass, cs: seq<Component>, n: nat)
    requires n < |cs|
    ensures RunComponents(pr, ps, cs[..n + 1]) == Step(RunComponents(pr, ps, cs[..n]), ps, cs[n])
  {
    assert cs[..n + 1][..n] == cs[..n];
  }

  /** Once cut short, the rest of the components change nothing. */
  lemma {:induction false} RunAfterAbort(pr: Progress, ps: Pass, cs: seq<Component>, n: nat)
    requires n <= |cs| && RunComponents(pr, ps, cs[..n]).aborted.Some?
    ensures RunComponents(pr, ps, cs) == RunComponents(pr, ps, cs[..n])
    decreases |cs|
  {
    if n < |cs| {
      var m := |cs| - 1;
      assert cs[..m][..n] == cs[..n];
      RunAfterAbort(pr, ps, cs[..m], n);
    } else {
      assert cs[..n] == cs;
    }
  }

  /** Where the pass stops: the first component that aborts it, or `|cs|` when none does. */
  function StopIndex(ps: Pass, cs: seq<Component>): (j: nat)
    ensures j <= |cs|
    ensures forall i :: 0 <= i < j ==> !Aborts(ps, cs[i])
    ensures j < |cs| ==> Aborts(ps, cs[j])
    decreases |cs|
  {
    if |cs| == 0 then 0
    else
      var n := |cs| - 1;
      var j := StopIndex(ps, cs[..n]);
      assert forall i :: 0 <= i < j ==> cs[..n][i] == cs[i];
      if j < n then j else if Aborts(ps, cs[n]) then n else |cs|
  }

  /** The log and the recorded waits only grow during a pass. */
  lemma {:induction false} RunAppends(pr: Progress, ps: Pass, cs: seq<Component>)
    requires KeysOf(ps.exec, cs) <= pr.records.Keys
    ensures var r := RunComponents(pr, ps, cs); pr.log <= r.log && pr.waits <= r.waits
    decreases |cs|
  {
    if |cs| > 0 {
      KeysOfSnoc(ps.exec, cs);
      RunAppends(pr, ps, cs[..|cs| - 1]);
    }
  }

  /** A pass never touches a row that is not one of its components' rows. */
  lemma {:induction false} RunOutsideUnchanged(pr: Progress, ps: Pass, cs: seq<Component>)
    requires KeysOf(ps.exec, cs) <= pr.records.Keys
    ensures var r := RunComponents(pr, ps, cs);
      forall k :: k in pr.records && k !in KeysOf(ps.exec, cs) ==> r.records[k] == pr.records[k]
    decreases |cs|
  {
    if |cs| > 0 {
      KeysOfSnoc(ps.exec, cs);
      RunOutsideUnchanged(pr, ps, cs[..|cs| - 1]);
    }
  }

  /** Without the abort rule a pass never aborts and leaves every one of its rows `completed` or `failed`. */
  lemma {:induction false} RunWithoutAbort(pr: Progress, ps: Pass, cs: seq<Component>)
    requires KeysOf(ps.exec, cs) <= pr.records.Keys
    requires !ps.abortOnFailure && pr.aborted.None?
    ensures var r := RunComponents(pr, ps, cs);
      && r.aborted.None?
      && forall k :: k in KeysOf(ps.exec, cs) ==>
           r.records[k].status == ComponentState.Completed || r.records[k].status == ComponentState.Failed
    decreases |cs|
  {
    if |cs| > 0 {
      KeysOfSnoc(ps.exec, cs);
      RunWithoutAbort(pr, ps, cs[..|cs| - 1]);
    }
  }

  /**
   * `r` is the outcome of a pass from `pr` over `cs`: it aborts exactly at
   * the first component that exhausts its attempts under required validation;
   * every component up to that one is attempted and its row saved, and no
   * later component's row is touched.
   */
  ghost predicate Outcome(pr: Progress, ps: Pass, cs: seq<Component>, r: Progress) {
    AbortedAt(ps, cs, r) && RowsUpTo(pr, ps, cs, r)
  }

  /** The pass stops at `StopIndex`, with that component's exception. */
  ghost predicate AbortedAt(ps: Pass, cs: seq<Component>, r: Progress) {
    var j := StopIndex(ps, cs);
    r.aborted == (if j < |cs| then Some(AbortMessage(cs[j])) else None)
  }

  /** The rows of the components up to `StopIndex` are saved after execution, the later ones untouched. */
  ghost predicate RowsUpTo(pr: Progress, ps: Pass, cs: seq<Component>, r: Progress) {
    var j := StopIndex(ps, cs);
    forall i :: 0 <= i < |cs| ==>
      var key := StatusKey(ps.exec, cs[i].id);
      key in r.records && key in pr.records &&
      r.records[key] == (if i <= j then Finished(pr.records[key], ComponentTrace(cs[i], ps.body), ps.now)
                         else pr.records[key])
  }

  /** One more component keeps `AbortedAt`, once its row exists. */
  lemma AbortedStep(ps: Pass, cs: seq<Component>, r0: Progress)
    requires |cs| > 0 && StatusKey(ps.exec, cs[|cs| - 1].id) in r0.records
    requires AbortedAt(ps, cs[..|cs| - 1], r0)
    ensures AbortedAt(ps, cs, Step(r0, ps, cs[|cs| - 1]))
  {
    var n := |cs| - 1;
    var jf := StopIndex(ps, cs[..n]);
    if jf < n {
      assert cs[..n][jf] == cs[jf];
    }
  }

  /** One more component keeps `RowsUpTo`, given that the earlier ones left its row alone. */
  lemma RowsStep(pr: Progress, ps: Pass, cs: seq<Component>, r0: Progress)
    requires |cs| > 0 && KeysOf(ps.exec, cs) <= pr.records.Keys && DistinctIds(cs)
    requires r0.records.Keys == pr.records.Keys
    requires AbortedAt(ps, cs[..|cs| - 1], r0) && RowsUpTo(pr, ps, cs[..|cs| - 1], r0)
    requires forall k :: k in pr.records && k !in KeysOf(ps.exec, cs[..|cs| - 1]) ==> r0.records[k] == pr.records[k]
    ensures RowsUpTo(pr, ps, cs, Step(r0, ps, cs[|cs| - 1]))
  {
    var n := |cs| - 1;
    var front := cs[..n];
    KeysOfSnoc(ps.exec, cs);
    var last := StatusKey(ps.exec, cs[n].id);
    assert last !in KeysOf(ps.exec, front);
    var r := Step(r0, ps, cs[n]);
    var j := StopIndex(ps, cs);
    forall i | 0 <= i < |cs|
      ensures var key := StatusKey(ps.exec, cs[i].id);
        key in r.records && key in pr.records &&
        r.records[key] == (if i <= j then Finished(pr.records[key], ComponentTrace(cs[i], ps.body), ps.now)
                           else pr.records[key])
    {
      if i < n {
        assert front[i] == cs[i];
        assert StatusKey(ps.exec, cs[i].id) != last;
      }
    }
  }

  /** The outcome of a pass over components with distinct ids, as `Outcome` states it. */
  lemma {:induction false} RunOutcome(pr: Progress, ps: Pass, cs: seq<Component>)
    requires KeysOf(ps.exec, cs) <= pr.records.Keys
    requires pr.aborted.None? && DistinctIds(cs)
    ensures Outcome(pr, ps, cs, RunComponents(pr, ps, cs))
    decreases |cs|
  {
    if |cs| > 0 {
      var front := cs[..|cs| - 1];
      KeysOfSnoc(ps.exec, cs);
      assert DistinctIds(front);
      RunOutcome(pr, ps, front);
      RunOutsideUnchanged(pr, ps, front);
      AbortedStep(ps, cs, RunComponents(pr, ps, front));
      RowsStep(pr, ps, cs, RunComponents(pr, ps, front));
    }
  }

  /**
   * The rows a run ends with, from a table its init loop prepared: the keys
   * stay those of the table and the pass's components; when the run does
   * not abort, a component's row is `completed` exactly when the component
   * succeeded within its attempts; every other row is as it was.
   */
  lemma PassStatuses(records0: map<StatusKey, StatusRecord>, log: string, ps: Pass, cs: seq<Component>)
    requires DistinctIds(cs)
    ensures var r := RunComponents(Progress(InitStatuses(records0, ps.exec, cs), log, [], None), ps, cs);
      && r.records.Keys == records0.Keys + KeysOf(ps.exec, cs)
      && (r.aborted.None? ==> forall i :: 0 <= i < |cs| ==>
            (r.records[StatusKey(ps.exec, cs[i].id)].status == ComponentState.Completed <==>
             ComponentTrace(cs[i], ps.body).succeeded))
      && forall k :: k in records0 && k !in KeysOf(ps.exec, cs) ==> r.records[k] == records0[k]
  {
    var pr := Progress(InitStatuses(records0, ps.exec, cs), log, [], None);
    RunOutcome(pr, ps, cs);
    RunOutsideUnchanged(pr, ps, cs);
    var r := RunComponents(pr, ps, cs);
    if r.aborted.None? {
      assert StopIndex(ps, cs) == |cs|;
    }
  }

  /** Rows of run `exec`: all `completed` (`_check_all_components_completed` of the full run). */
  predicate AllCompleted(records: map<StatusKey, StatusRecord>, exec: Option<string>) {
    forall k :: k in records && k.execution == exec ==> records[k].status == ComponentState.Completed
  }

  /** A run's final status once its pass is over. */
  function FinalStatus(r: Progress, allCompleted: bool): RunStatus {
    if r.aborted.Some? then RunStatus.Failed
    else if allCompleted then RunStatus.Completed
    else RunStatus.PartiallyCompleted
  }

  /**
   * A full run starts from a table without rows of its own. When it does not
   * abort, every row of the run is `completed` exactly when every component
   * succeeded within its attempts; with no components the run is `completed`.
   */
  lemma FullRunCompletedIff(records0: map<StatusKey, StatusRecord>, log: string, ps: Pass, cs: seq<Component>)
    requires forall k :: k in records0 ==> k.execution != ps.exec
    requires DistinctIds(cs)
    ensures var r := RunComponents(Progress(InitStatuses(records0, ps.exec, cs), log, [], None), ps, cs);
      && (r.aborted.None? ==>
            (AllCompleted(r.records, ps.exec) <==> forall i :: 0 <= i < |cs| ==> ComponentTrace(cs[i], ps.body).succeeded))
      && (|cs| == 0 ==> FinalStatus(r, AllCompleted(r.records, ps.exec)) == RunStatus.Completed)
  {
    var r := RunComponents(Progress(InitStatuses(records0, ps.exec, cs), log, [], None), ps, cs);
    PassStatuses(records0, log, ps, cs);
    if r.aborted.None? {
      if AllCompleted(r.records, ps.exec) {
        forall i | 0 <= i < |cs| ensures ComponentTrace(cs[i], ps.body).succeeded {
          assert StatusKey(ps.exec, cs[i].id) in KeysOf(ps.exec, cs);
        }
      }
      if forall i :: 0 <= i < |cs| ==> ComponentTrace(cs[i], ps.body).succeeded {
        forall k | k in r.records && k.execution == ps.exec ensures r.records[k].status == ComponentState.Completed {
          assert k in KeysOf(ps.exec, cs);
          var i :| 0 <= i < |cs| && k == StatusKey(ps.exec, cs[i].id);
        }
      }
    }
  }

  /** Loop state while attempts remain: what is left of the trace is `AttemptsFrom(k, delay)`. */
  ghost predicate Ongoing(p: Policy, o: nat -> Outcome, t: Trace, k: nat, delay: real, waits: seq<real>, events: seq<Event>) {
    k <= p.maxRetries &&
    var a := AttemptsFrom(p, o, k, delay);
    && t.succeeded == a.succeeded && t.failures == a.failures && t.lastError == a.lastError
    && t.waits == waits + a.waits && t.events == events + a.events
  }

  /** Loop state once the loop has stopped: the whole trace has been played. */
  ghost predicate Ended(t: Trace, success: bool, k: nat, waits: seq<real>, events: seq<Event>) {
    t.succeeded == success && t.failures == k && t.waits == waits && t.events == events
  }

  lemma StartAttempts(p: Policy, o: nat -> Outcome)
    ensures Ongoing(p, o, Attempts(p, o), 0, p.initialDelay, [], [])
  {
    assert [] + Attempts(p, o).waits == Attempts(p, o).waits;
    assert [] + Attempts(p, o).events == Attempts(p, o).events;
  }

  lemma AdvanceSucceeded(p: Policy, o: nat -> Outcome, t: Trace, k: nat, delay: real, waits: seq<real>, events: seq<Event>)
    requires Ongoing(p, o, t, k, delay, waits, events) && o(k) == Succeeded
    ensures Ended(t, true, k, waits, events + [Done])
  {
    assert waits + [] == waits;
  }

  lemma AdvanceRetry(p: Policy, o: nat -> Outcome, t: Trace, k: nat, delay: real, waits: seq<real>, events: seq<Event>, e: string)
    requires Ongoing(p, o, t, k, delay, waits, events) && o(k) == Raised(e) && k + 1 <= p.maxRetries
    ensures Ongoing(p, o, t, k + 1, Grow(p, delay), waits + [Grow(p, delay)], events + [Retrying(k + 1, e)])
  {
    var a := AttemptsFrom(p, o, k + 1, Grow(p, delay));
    assert waits + ([Grow(p, delay)] + a.waits) == waits + [Grow(p, delay)] + a.waits;
    assert events + ([Retrying(k + 1, e)] + a.events) == events + [Retrying(k + 1, e)] + a.events;
  }

  lemma AdvanceGiveUp(p: Policy, o: nat -> Outcome, t: Trace, k: nat, delay: real, waits: seq<real>, events: seq<Event>, e: string)
    requires Ongoing(p, o, t, k, delay, waits, events) && o(k) == Raised(e) && k + 1 > p.maxRetries
    ensures Ended(t, false, k + 1, waits, events + [GaveUp(e)]) && t.lastError == e
  {
    assert waits + [] == waits;
  }

  lemma EventsLogSnoc(c: Component, maxRetries: nat, events: seq<Event>, e: Event, now: Timestamp)
    ensures EventsLog(c, maxRetries, events + [e], now) == EventsLog(c, maxRetries, events, now) + LogEntry(now, EventMessage(c, maxRetries, e))
  {
    assert (events + [e])[..|events|] == events;
  }

  /** The delay update before a retry: multiplied by the backoff factor when the first strategy is exponential. */
  method NextDelay(strategies: seq<RetryStrategy>, delay: real) returns (next: real)
    ensures next == Grow(PolicyOf(strategies), delay)
  {
    next := delay;
    if |strategies| > 0 && strategies[0].strategyType == Exponential {
      next := delay * strategies[0].backoffFactor;
    }
  }

  /**
   * The `while` loop of `_execute_component` on the in-memory row `rec`:
   * it logs one line per attempt, records a wait before each retry, and
   * leaves the row attempted. The returned flag says the run must abort.
   */
  method AttemptLoop(run: Execution, c: Component, body: (nat, nat) -> Outcome, abortOnFailure: bool,
                     now: Timestamp, rec: StatusRecord)
    returns (out: StatusRecord, aborted: bool, ghost waits: seq<real>)
    modifies run`executionLog
    ensures out == Attempted(rec, ComponentTrace(c, body))
    ensures run.executionLog == old(run.executionLog)
              + EventsLog(c, PolicyOf(c.retryStrategies).maxRetries, ComponentTrace(c, body).events, now)
    ensures waits == ComponentTrace(c, body).waits
    ensures aborted == (!ComponentTrace(c, body).succeeded && abortOnFailure)
  {
    var maxRetries: nat := 0;
    var currentRetry: nat := 0;
    var delay: real := 0.0;
    if |c.retryStrategies| > 0 {
      maxRetries := c.retryStrategies[0].maxRetries;
      delay := c.retryStrategies[0].initialDelaySeconds as real;
    }
    var success := false;
    out := rec;
    aborted := false;
    waits := [];
    ghost var log0 := run.executionLog;
    ghost var events: seq<Event> := [];
    ghost var p := PolicyOf(c.retryStrategies);
    ghost var o := Outcomes(c, body);
    ghost var t := ComponentTrace(c, body);
    StartAttempts(p, o);

    while !success && currentRetry <= maxRetries
      invariant maxRetries == p.maxRetries && currentRetry <= maxRetries + 1
      invariant success ==> currentRetry <= maxRetries
      invariant !success && currentRetry <= maxRetries ==> Ongoing(p, o, t, currentRetry, delay, waits, events)
      invariant success || currentRetry > maxRetries ==> Ended(t, success, currentRetry, waits, events)
      invariant out == rec.(status := if success then ComponentState.Completed
                                      else if currentRetry > maxRetries then ComponentState.Failed
                                      else rec.status,
                            retryCount := if currentRetry > 0 then currentRetry else rec.retryCount,
                            errorMessage := if !success && currentRetry > maxRetries then t.lastError else rec.errorMessage)
      invariant run.executionLog == log0 + EventsLog(c, maxRetries, events, now)
      invariant aborted == (!success && currentRetry > maxRetries && abortOnFailure)
      decreases !success, maxRetries + 1 - currentRetry
    {
      ghost var k := currentRetry;
      assert o(k) == body(c.id, k);
      match body(c.id, currentRetry)
      case Succeeded =>
        AdvanceSucceeded(p, o, t, k, delay, waits, events);
        EventsLogSnoc(c, maxRetries, events, Done, now);
        AppendAssoc(log0, EventsLog(c, maxRetries, events, now), LogEntry(now, EventMessage(c, maxRetries, Done)));
        success := true;
        out := out.(status := ComponentState.Completed);
        run.Log(now, EventMessage(c, maxRetries, Done));
        events := events + [Done];
      case Raised(e) =>
        currentRetry := currentRetry + 1;
        out := out.(retryCount := currentRetry);
        if currentRetry <= maxRetries {
          AdvanceRetry(p, o, t, k, delay, waits, events, e);
          EventsLogSnoc(c, maxRetries, events, Retrying(currentRetry, e), now);
          AppendAssoc(log0, EventsLog(c, maxRetries, events, now), LogEntry(now, EventMessage(c, maxRetries, Retrying(currentRetry, e))));
          run.Log(now, EventMessage(c, maxRetries, Retrying(currentRetry, e)));
          events := events + [Retrying(currentRetry, e)];
          delay := NextDelay(c.retryStrategies, delay);
          // time.sleep(delay)
          waits := waits + [delay];
        } else {
          AdvanceGiveUp(p, o, t, k, delay, waits, events, e);
          EventsLogSnoc(c, maxRetries, events, GaveUp(e), now);
          AppendAssoc(log0, EventsLog(c, maxRetries, events, now), LogEntry(now, EventMessage(c, maxRetries, GaveUp(e))));
          out := out.(status := ComponentState.Failed, errorMessage := e);
          run.Log(now, EventMessage(c, maxRetries, GaveUp(e)));
          events := events + [GaveUp(e)];
          if abortOnFailure {
            // The source raises here, skipping the final save (see PersistedAsWritten).
            aborted := true;
          }
        }
    }
  }

  /**
   * `_execute_component`: save the row as running, log, run the attempt
   * loop, then stamp and save the row, also when the run must abort.
   */
  method ExecuteComponent(run: Execution, store: StatusTable, key: StatusKey, c: Component,
                          body: (nat, nat) -> Outcome, abortOnFailure: bool, now: Timestamp)
    returns (aborted: bool, ghost waits: seq<real>)
    requires key in store.records
    modifies run`executionLog, store`records
    ensures store.records == old(store.records)[key := Finished(old(store.records[key]), ComponentTrace(c, body), now)]
    ensures run.executionLog == old(run.executionLog) + ComponentLog(c, ComponentTrace(c, body), now)
    ensures waits == ComponentTrace(c, body).waits
    ensures aborted == (!ComponentTrace(c, body).succeeded && abortOnFailure)
  {
    ghost var rec0 := store.records[key];
    ghost var t := ComponentTrace(c, body);
    var rec := store.records[key].(status := ComponentState.Running, startedAt := Some(now));
    store.records := store.records[key := rec];
    ghost var log0 := run.executionLog;
    run.Log(now, ExecutingMessage(c));
    rec, aborted, waits := AttemptLoop(run, c, body, abortOnFailure, now, rec);
    assert run.executionLog == old(run.executionLog) + ComponentLog(c, t, now) by {
      AppendAssoc(log0, LogEntry(now, ExecutingMessage(c)), EventsLog(c, PolicyOf(c.retryStrategies).maxRetries, t.events, now));
    }
    rec := rec.(completedAt := Some(now));
    assert rec == Finished(rec0, t, now);
    store.records := store.records[key := rec];
  }

  /**
   * The component loop of `execute` (full run and sub-run alike): fetch each
   * row and execute its component, until a missing row or an abort ends it.
   */
  method ExecutePass(run: Execution, store: StatusTable, ps: Pass, cs: seq<Component>)
    returns (failure: Option<string>, ghost waits: seq<real>)
    modifies run`executionLog, store`records
    ensures Progress(store.records, run.executionLog, waits, failure)
      == RunComponents(Progress(old(store.records), old(run.executionLog), [], None), ps, cs)
  {
    ghost var pr0 := Progress(store.records, run.executionLog, [], None);
    failure := None;
    waits := [];
    var i := 0;
    while i < |cs| && failure.None?
      invariant 0 <= i <= |cs|
      invariant Progress(store.records, run.executionLog, waits, failure) == RunComponents(pr0, ps, cs[..i])
    {
      RunSnoc(pr0, ps, cs, i);
      ghost var before := Progress(store.records, run.executionLog, waits, failure);
      var c := cs[i];
      var key := StatusKey(ps.exec, c.id);
      if key !in store.records {
        failure := Some(MissingRowMessage);
      } else {
        var aborted, w := ExecuteComponent(run, store, key, c, ps.body, ps.abortOnFailure, ps.now);
        waits := waits + w;
        if aborted {
          failure := Some(AbortMessage(c));
        }
        StepExecutes(before, ps, c);
      }
      assert Progress(store.records, run.executionLog, waits, failure) == Step(before, ps, c);
      i := i + 1;
    }
    if i < |cs| {
      RunAfterAbort(pr0, ps, cs, i);
    } else {
      assert cs[..i] == cs;
    }
  }
}
