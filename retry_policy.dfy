/**
 * The attempt loop of `_execute_component`, as a specification: what a run of
 * attempts against a component looks like, given the component's first retry
 * strategy and an oracle telling, for each attempt, whether the body raised.
 */
module RetryPolicy {
  import opened Wrappers
  import opened Models

  /** What one attempt of a component body did. */
  datatype Outcome = Succeeded | Raised(error: string)

  /** The numbers the loop reads from the first strategy (or the defaults 0 and 0 without one). */
  datatype Policy = Policy(maxRetries: nat, initialDelay: real, backoff: Option<real>)

  /** Only the first strategy is consulted, and it grows the delay only when it is exponential. */
  function PolicyOf(strategies: seq<RetryStrategy>): Policy {
    if |strategies| == 0 then Policy(0, 0.0, None)
    else
      var s := strategies[0];
      Policy(s.maxRetries, s.initialDelaySeconds as real,
             if s.strategyType == Exponential then Some(s.backoffFactor) else None)
  }

  /** The delay for the next retry, computed from the previous one. */
  function Grow(p: Policy, delay: real): real {
    match p.backoff
    case Some(f) => delay * f
    case None => delay
  }

  /** What the loop logs, one entry per attempt. */
  datatype Event = Done | Retrying(retry: nat, error: string) | GaveUp(error: string)

  /**
   * The result of the attempts: whether one succeeded, how many failed (the
   * `retry_count` the loop writes), the last error, the waits requested before
   * each retry and the log events.
   */
  datatype Trace = Trace(succeeded: bool, failures: nat, lastError: string, waits: seq<real>, events: seq<Event>)

  /** The attempts from attempt `k` on, the current delay being `delay`. */
  function AttemptsFrom(p: Policy, body: nat -> Outcome, k: nat, delay: real): Trace
    requires k <= p.maxRetries
    decreases p.maxRetries - k
  {
    match body(k)
    case Succeeded => Trace(true, k, "", [], [Done])
    case Raised(e) =>
      if k + 1 <= p.maxRetries then
        var d := Grow(p, delay);
        var rest := AttemptsFrom(p, body, k + 1, d);
        rest.(waits := [d] + rest.waits, events := [Retrying(k + 1, e)] + rest.events)
      else Trace(false, k + 1, e, [], [GaveUp(e)])
  }

  /** All attempts of one `_execute_component` call. */
  function Attempts(p: Policy, body: nat -> Outcome): Trace {
    AttemptsFrom(p, body, 0, p.initialDelay)
  }

  /** The number of times the loop executes the body. */
  function AttemptCount(t: Trace): nat {
    if t.succeeded then t.failures + 1 else t.failures
  }

  function Pow(x: real, n: nat): real {
    if n == 0 then 1.0 else x * Pow(x, n - 1)
  }

  /** The wait requested before retry `k` (1-based). */
  function WaitBefore(p: Policy, k: nat): real {
    match p.backoff
    case Some(f) => p.initialDelay * Pow(f, k)
    case None => p.initialDelay
  }

  /**
   * The attempts stop at the first success: every attempt before it raised,
   * and without a success all `maxRetries + 1` attempts raised and the last
   * error is kept.
   */
  lemma {:induction false} AttemptsFromShape(p: Policy, body: nat -> Outcome, k: nat, delay: real)
    requires k <= p.maxRetries
    ensures var t := AttemptsFrom(p, body, k, delay);
      && k <= t.failures
      && (forall i :: k <= i < t.failures ==> body(i).Raised?)
      && (t.succeeded ==> t.failures <= p.maxRetries && body(t.failures) == Succeeded)
      && (!t.succeeded ==> t.failures == p.maxRetries + 1 && body(p.maxRetries) == Raised(t.lastError))
      && |t.waits| == AttemptCount(t) - k - 1
      && |t.events| == |t.waits| + 1
      && (forall i :: 0 <= i < |t.waits| ==> t.events[i] == Retrying(k + i + 1, body(k + i).error))
      && t.events[|t.waits|] == (if t.succeeded then Done else GaveUp(t.lastError))
    decreases p.maxRetries - k
  {
    match body(k)
    case Succeeded =>
    case Raised(e) =>
      if k + 1 <= p.maxRetries {
        AttemptsFromShape(p, body, k + 1, Grow(p, delay));
      }
  }

  /** The delay grown `n` times. */
  function Grown(p: Policy, delay: real, n: nat): real
    decreases n
  {
    if n == 0 then delay else Grown(p, Grow(p, delay), n - 1)
  }

  /** Growing `n` times multiplies by the factor's `n`-th power, or keeps the delay without a factor. */
  lemma {:induction false} GrownClosedForm(p: Policy, delay: real, n: nat)
    ensures Grown(p, delay, n) == (match p.backoff case Some(f) => delay * Pow(f, n) case None => delay)
    decreases n
  {
    if n > 0 {
      GrownClosedForm(p, Grow(p, delay), n - 1);
      match p.backoff {
        case Some(f) =>
          assert Grow(p, delay) * Pow(f, n - 1) == delay * (f * Pow(f, n - 1));
        case None =>
      }
    }
  }

  /** Before retry `i + 1` (counted from attempt `k`) the loop waits the delay grown `i + 1` times. */
  lemma {:induction false} AttemptsFromWaits(p: Policy, body: nat -> Outcome, k: nat, delay: real)
    requires k <= p.maxRetries
    ensures var t := AttemptsFrom(p, body, k, delay);
      forall i :: 0 <= i < |t.waits| ==> t.waits[i] == Grown(p, delay, i + 1)
    decreases p.maxRetries - k
  {
    match body(k)
    case Succeeded =>
    case Raised(e) =>
      if k + 1 <= p.maxRetries {
        var d := Grow(p, delay);
        AttemptsFromWaits(p, body, k + 1, d);
        assert var r := AttemptsFrom(p, body, k + 1, d); forall i :: 0 <= i < |r.waits| ==> r.waits[i] == Grown(p, d, i + 1);
        var t := AttemptsFrom(p, body, k, delay);
        var rest := AttemptsFrom(p, body, k + 1, d);
        assert t.waits == [d] + rest.waits;
        forall i | 0 <= i < |t.waits| ensures t.waits[i] == Grown(p, delay, i + 1) {
          if i > 0 {
            var j := i - 1;
            assert rest.waits[j] == Grown(p, d, j + 1);
          }
        }
      }
  }

  /** The body runs at most `maxRetries + 1` times, and `retry_count` counts exactly the attempts that raised. */
  lemma AttemptsBounded(p: Policy, body: nat -> Outcome)
    ensures var t := Attempts(p, body);
      && 1 <= AttemptCount(t) <= p.maxRetries + 1
      && (forall i :: 0 <= i < t.failures ==> body(i).Raised?)
      && (t.succeeded ==> body(t.failures) == Succeeded)
  {
    AttemptsFromShape(p, body, 0, p.initialDelay);
  }

  /** A component whose every attempt raises ends failed after `maxRetries + 1` attempts with the last error. */
  lemma AllAttemptsFail(p: Policy, body: nat -> Outcome)
    requires forall i :: 0 <= i <= p.maxRetries ==> body(i).Raised?
    ensures var t := Attempts(p, body);
      && !t.succeeded
      && t.failures == p.maxRetries + 1
      && t.lastError == body(p.maxRetries).error
      && |t.waits| == p.maxRetries
  {
    AttemptsFromShape(p, body, 0, p.initialDelay);
  }

  /** A success ends the loop at once: the attempts succeed exactly when some attempt within budget succeeds. */
  lemma SucceedsIffSomeAttemptSucceeds(p: Policy, body: nat -> Outcome)
    ensures Attempts(p, body).succeeded <==> exists i :: 0 <= i <= p.maxRetries && body(i) == Succeeded
  {
    AttemptsFromShape(p, body, 0, p.initialDelay);
    var t := Attempts(p, body);
    if !t.succeeded {
      forall i | 0 <= i <= p.maxRetries ensures body(i).Raised? {
      }
    }
  }

  /** One wait per retry; the wait before retry `k` is `initial * factor^k` for an exponential strategy and `initial` otherwise. */
  lemma RetryWaits(p: Policy, body: nat -> Outcome)
    ensures var t := Attempts(p, body);
      && |t.waits| == AttemptCount(t) - 1
      && forall i :: 0 <= i < |t.waits| ==> t.waits[i] == WaitBefore(p, i + 1)
  {
    AttemptsFromShape(p, body, 0, p.initialDelay);
    AttemptsFromWaits(p, body, 0, p.initialDelay);
    var t := Attempts(p, body);
    forall i | 0 <= i < |t.waits| ensures t.waits[i] == WaitBefore(p, i + 1) {
      GrownClosedForm(p, p.initialDelay, i + 1);
    }
  }

  /** The log gets one `Retrying` event per retry, numbered from 1, then the final `Done` or `GaveUp`. */
  lemma AttemptEvents(p: Policy, body: nat -> Outcome)
    ensures var t := Attempts(p, body);
      && |t.events| == AttemptCount(t)
      && (forall i :: 0 <= i < |t.events| - 1 ==> body(i).Raised? && t.events[i] == Retrying(i + 1, body(i).error))
      && t.events[|t.events| - 1] == (if t.succeeded then Done else GaveUp(t.lastError))
  {
    AttemptsFromShape(p, body, 0, p.initialDelay);
  }

  /** Without a retry strategy there is exactly one attempt and no wait. */
  lemma NoStrategySingleAttempt(body: nat -> Outcome)
    ensures var t := Attempts(PolicyOf([]), body);
      && AttemptCount(t) == 1
      && t.waits == []
      && (t.succeeded <==> body(0) == Succeeded)
  {
    AttemptsFromShape(PolicyOf([]), body, 0, 0.0);
  }

  /** Only the first strategy counts: later ones never change the policy. */
  lemma FirstStrategyOnly(first: RetryStrategy, rest: seq<RetryStrategy>)
    ensures PolicyOf([first] + rest) == PolicyOf([first])
  {
  }

  /** Three retries, initial delay 1 and factor 2, every attempt failing: four attempts, waits 2, 4 and 8. */
  lemma ExponentialExample(body: nat -> Outcome)
    requires forall i :: body(i).Raised?
    ensures var p := PolicyOf([RetryStrategy(Exponential, 3, 1, 2.0)]);
      var t := Attempts(p, body);
      AttemptCount(t) == 4 && !t.succeeded && t.waits == [2.0, 4.0, 8.0]
  {
    var p := PolicyOf([RetryStrategy(Exponential, 3, 1, 2.0)]);
    AllAttemptsFail(p, body);
    RetryWaits(p, body);
    var t := Attempts(p, body);
    assert Pow(2.0, 1) == 2.0 && Pow(2.0, 2) == 4.0 && Pow(2.0, 3) == 8.0;
    assert t.waits == [2.0, 4.0, 8.0];
  }
}
