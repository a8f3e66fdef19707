/**
 * What the replay loops of the MQ and Kafka connectors promise, independent
 * of the wire: which messages are handed on, in which order, and where a
 * truthy `limit` stops the count.
 */
module Replay {
  import opened Wrappers
  import opened Values

  /** `if filter_func and not filter_func(message): continue`, negated: without a filter every message is kept. */
  predicate Wanted(filter: Option<Value -> bool>, m: Value) {
    filter.None? || filter.value(m)
  }

  /** `transform_func(message) if transform_func else message`. */
  function Processed(transform: Option<Value -> Value>, m: Value): Value {
    match transform
    case None => m
    case Some(f) => f(m)
  }

  /** The filter as a function on messages. */
  function Keep(filter: Option<Value -> bool>): Value -> bool {
    (m: Value) => Wanted(filter, m)
  }

  /** The transform as a function on messages. */
  function Apply(transform: Option<Value -> Value>): Value -> Value {
    (m: Value) => Processed(transform, m)
  }

  /**
   * The items a replay hands on, in their original order: those `keep`
   * accepts, mapped by `out`, and of those only the ones `accepted` holds of.
   */
  function Forwarded<T>(ms: seq<T>, keep: T -> bool, out: T -> T, accepted: T -> bool): seq<T>
  {
    if ms == [] then []
    else
      var front := Forwarded(ms[..|ms| - 1], keep, out, accepted);
      var m := ms[|ms| - 1];
      if keep(m) && accepted(out(m)) then front + [out(m)] else front
  }

  /** Handing on one more item extends what was handed on by at most that item. */
  lemma ForwardedSnoc<T>(ms: seq<T>, m: T, keep: T -> bool, out: T -> T, accepted: T -> bool)
    ensures Forwarded(ms + [m], keep, out, accepted) ==
      Forwarded(ms, keep, out, accepted) + (if keep(m) && accepted(out(m)) then [out(m)] else [])
  {
    assert (ms + [m])[..|ms + [m]| - 1] == ms;
  }

  /** Replaying two stretches one after the other hands on what each hands on, in that order. */
  lemma {:induction false} ForwardedAppend<T>(a: seq<T>, b: seq<T>, keep: T -> bool, out: T -> T, accepted: T -> bool)
    ensures Forwarded(a + b, keep, out, accepted) == Forwarded(a, keep, out, accepted) + Forwarded(b, keep, out, accepted)
    decreases |b|
  {
    if b == [] {
      assert a + b == a;
    } else {
      var front := b[..|b| - 1];
      var m := b[|b| - 1];
      assert b == front + [m];
      assert a + b == (a + front) + [m];
      ForwardedAppend(a, front, keep, out, accepted);
      ForwardedSnoc(a + front, m, keep, out, accepted);
      ForwardedSnoc(front, m, keep, out, accepted);
    }
  }

  /**
   * Exactly the kept items whose mapped form is accepted are handed on, and
   * nothing else: an item is handed on iff it is `out(m)` for a kept `m`.
   */
  lemma {:induction false} ForwardedMembers<T>(ms: seq<T>, keep: T -> bool, out: T -> T, accepted: T -> bool, x: T)
    ensures x in Forwarded(ms, keep, out, accepted) <==>
      exists i :: 0 <= i < |ms| && keep(ms[i]) && out(ms[i]) == x && accepted(x)
    ensures |Forwarded(ms, keep, out, accepted)| <= |ms|
    decreases |ms|
  {
    if ms != [] {
      var front := ms[..|ms| - 1];
      ForwardedMembers(front, keep, out, accepted, x);
      if exists i :: 0 <= i < |front| && keep(front[i]) && out(front[i]) == x && accepted(x) {
        var i :| 0 <= i < |front| && keep(front[i]) && out(front[i]) == x && accepted(x);
        assert ms[i] == front[i];
      }
      if exists i :: 0 <= i < |ms| && keep(ms[i]) && out(ms[i]) == x && accepted(x) {
        var i :| 0 <= i < |ms| && keep(ms[i]) && out(ms[i]) == x && accepted(x);
        if i < |front| {
          assert front[i] == ms[i];
        }
      }
    }
  }

  /** Keeping everything, changing nothing and accepting everything hands on the whole sequence. */
  lemma {:induction false} ForwardedAll<T>(ms: seq<T>, keep: T -> bool, out: T -> T, accepted: T -> bool)
    requires forall m :: keep(m) && out(m) == m && accepted(m)
    ensures Forwarded(ms, keep, out, accepted) == ms
    decreases |ms|
  {
    if ms != [] {
      ForwardedAll(ms[..|ms| - 1], keep, out, accepted);
      assert ms == ms[..|ms| - 1] + [ms[|ms| - 1]];
    }
  }

  /**
   * `if limit and count >= limit: return count`, checked after each counted
   * send: a truthy limit caps the count, and a negative one stops after the
   * first counted send; `None` and `0` do not stop the loop.
   */
  function Cap(limit: Option<int>): Option<nat> {
    match limit
    case None => None
    case Some(l) => if l == 0 then None else if l >= 1 then Some(l) else Some(1)
  }

  /** The count a replay returns when `n` items would be counted without a stop. */
  function Bounded(n: nat, cap: Option<nat>): (r: nat)
    ensures r <= n
    ensures cap.Some? ==> r <= cap.value
    ensures cap.None? ==> r == n
    ensures cap.Some? && cap.value <= n ==> r == cap.value
  {
    match cap
    case None => n
    case Some(c) => if n < c then n else c
  }

  /** A truthy limit of at least one is never exceeded; a falsy one leaves the count alone. */
  lemma CapBound(limit: Option<int>, n: nat)
    ensures limit.Some? && limit.value >= 1 ==> Bounded(n, Cap(limit)) <= limit.value
    ensures (limit.None? || limit.value == 0) ==> Bounded(n, Cap(limit)) == n
    ensures limit.Some? && limit.value < 0 ==> Bounded(n, Cap(limit)) == (if n == 0 then 0 else 1)
  {
  }

  /** The shortest prefix of `ms` whose replay hands on `c` items. */
  function StopPrefix<T>(ms: seq<T>, keep: T -> bool, out: T -> T, accepted: T -> bool, c: nat): (p: nat)
    requires 1 <= c <= |Forwarded(ms, keep, out, accepted)|
    ensures 1 <= p <= |ms|
    ensures |Forwarded(ms[..p], keep, out, accepted)| == c
    ensures |Forwarded(ms[..p - 1], keep, out, accepted)| == c - 1
    decreases |ms|
  {
    var front := ms[..|ms| - 1];
    assert ms[..|ms|] == ms;
    if |Forwarded(front, keep, out, accepted)| >= c then
      var p := StopPrefix(front, keep, out, accepted, c);
      assert ms[..p] == front[..p] && ms[..p - 1] == front[..p - 1];
      p
    else
      assert ms == front + [ms[|ms| - 1]];
      |ms|
  }

  /** What the stop prefix hands on is the first `c` items the whole replay would hand on. */
  lemma StopPrefixForwarded<T>(ms: seq<T>, keep: T -> bool, out: T -> T, accepted: T -> bool, c: nat)
    requires 1 <= c <= |Forwarded(ms, keep, out, accepted)|
    ensures var p := StopPrefix(ms, keep, out, accepted, c);
      Forwarded(ms[..p], keep, out, accepted) == Forwarded(ms, keep, out, accepted)[..c]
  {
    var p := StopPrefix(ms, keep, out, accepted, c);
    assert ms == ms[..p] + ms[p..];
    ForwardedAppend(ms[..p], ms[p..], keep, out, accepted);
  }

  /** Looking at more items never hands on fewer. */
  lemma ForwardedMonotone<T>(ms: seq<T>, i: nat, j: nat, keep: T -> bool, out: T -> T, accepted: T -> bool)
    requires i <= j <= |ms|
    ensures |Forwarded(ms[..i], keep, out, accepted)| <= |Forwarded(ms[..j], keep, out, accepted)|
  {
    assert ms[..j] == ms[..i] + ms[i..j];
    ForwardedAppend(ms[..i], ms[i..j], keep, out, accepted);
  }

  /** The prefix at which the `c`-th item is handed on is the only one whose last item brings the count to `c`. */
  lemma {:induction false} StopPrefixUnique<T>(ms: seq<T>, keep: T -> bool, out: T -> T, accepted: T -> bool, c: nat, k: nat)
    requires 1 <= c && 1 <= k <= |ms|
    requires |Forwarded(ms[..k], keep, out, accepted)| == c
    requires |Forwarded(ms[..k - 1], keep, out, accepted)| == c - 1
    ensures c <= |Forwarded(ms, keep, out, accepted)|
    ensures StopPrefix(ms, keep, out, accepted, c) == k
    decreases |ms|
  {
    var front := ms[..|ms| - 1];
    assert ms[..|ms|] == ms;
    if k == |ms| {
      assert front == ms[..k - 1];
    } else {
      ForwardedMonotone(front, k, |front|, keep, out, accepted);
      assert front[..k] == ms[..k] && front[..k - 1] == ms[..k - 1] && front[..|front|] == front;
      StopPrefixUnique(front, keep, out, accepted, c, k);
      ForwardedMonotone(ms, |front|, |ms|, keep, out, accepted);
    }
  }

  /** `if limit and count >= limit`. */
  predicate LimitReached(limit: Option<int>, count: nat) {
    limit.Some? && limit.value != 0 && count >= limit.value
  }

  /** Once something was counted, the limit check stops exactly at the cap. */
  lemma LimitReachedAtCap(limit: Option<int>, count: nat)
    requires count >= 1
    ensures LimitReached(limit, count) <==> Cap(limit).Some? && count >= Cap(limit).value
  {
  }

  /**
   * How many items a replay that pulls them in batches of `size`, from
   * `start` on, takes from its source when the `c`-th item handed on stops
   * it: up to the end of the first batch whose prefix hands on `c` items,
   * or all of them when none does.
   */
  function DrawnFrom<T>(ms: seq<T>, keep: T -> bool, out: T -> T, accepted: T -> bool, c: nat, start: nat, size: nat)
    : (n: nat)
    requires size >= 1
    ensures n <= |ms|
    decreases |ms| - start
  {
    if start >= |ms| then |ms|
    else
      var end := if start + size <= |ms| then start + size else |ms|;
      if |Forwarded(ms[..end], keep, out, accepted)| >= c then end
      else DrawnFrom(ms, keep, out, accepted, c, end, size)
  }

  /** How many items a replay in batches of `size` takes: all of them, unless a cap stops it. */
  function Drawn<T>(ms: seq<T>, keep: T -> bool, out: T -> T, accepted: T -> bool, cap: Option<nat>, size: nat): (n: nat)
    requires size >= 1
    ensures n <= |ms|
  {
    match cap
    case None => |ms|
    case Some(c) => DrawnFrom(ms, keep, out, accepted, c, 0, size)
  }

  /** A cap that is never reached lets the replay take every item. */
  lemma {:induction false} DrawnFromAll<T>(ms: seq<T>, keep: T -> bool, out: T -> T, accepted: T -> bool,
                                           c: nat, start: nat, size: nat)
    requires size >= 1 && |Forwarded(ms, keep, out, accepted)| < c
    ensures DrawnFrom(ms, keep, out, accepted, c, start, size) == |ms|
    decreases |ms| - start
  {
    if start < |ms| {
      var end := if start + size <= |ms| then start + size else |ms|;
      ForwardedMonotone(ms, end, |ms|, keep, out, accepted);
      assert ms[..|ms|] == ms;
      DrawnFromAll(ms, keep, out, accepted, c, end, size);
    }
  }

  /**
   * A replay stopped by its cap takes the items up to the `c`-th one handed
   * on and fewer than a batch more: the rest of the batch it was stopped in.
   */
  lemma {:induction false} DrawnFromStop<T>(ms: seq<T>, keep: T -> bool, out: T -> T, accepted: T -> bool,
                                            c: nat, start: nat, size: nat)
    requires size >= 1 && 1 <= c <= |Forwarded(ms, keep, out, accepted)|
    requires start <= |ms| && |Forwarded(ms[..start], keep, out, accepted)| < c
    ensures var p := StopPrefix(ms, keep, out, accepted, c);
      var n := DrawnFrom(ms, keep, out, accepted, c, start, size);
      start < p <= n < p + size
    decreases |ms| - start
  {
    var p := StopPrefix(ms, keep, out, accepted, c);
    if p <= start {
      ForwardedMonotone(ms, p, start, keep, out, accepted);
      assert false;
    }
    assert start < |ms|;
    var end := if start + size <= |ms| then start + size else |ms|;
    var n := DrawnFrom(ms, keep, out, accepted, c, start, size);
    if |Forwarded(ms[..end], keep, out, accepted)| >= c {
      assert n == end;
      if end < p {
        ForwardedMonotone(ms, end, p - 1, keep, out, accepted);
        assert false;
      }
    } else {
      assert n == DrawnFrom(ms, keep, out, accepted, c, end, size);
      DrawnFromStop(ms, keep, out, accepted, c, end, size);
    }
  }

  /** With a cap of at least one that is reached, the replay takes at least the stop prefix and less than one batch more. */
  lemma DrawnBounds<T>(ms: seq<T>, keep: T -> bool, out: T -> T, accepted: T -> bool, c: nat, size: nat)
    requires size >= 1 && 1 <= c <= |Forwarded(ms, keep, out, accepted)|
    ensures var p := StopPrefix(ms, keep, out, accepted, c);
      var n := Drawn(ms, keep, out, accepted, Some(c), size);
      p <= n < p + size
  {
    assert ms[..0] == [];
    DrawnFromStop(ms, keep, out, accepted, c, 0, size);
  }

  /** Without a cap, or with one that is not reached, the replay takes every item. */
  lemma DrawnAll<T>(ms: seq<T>, keep: T -> bool, out: T -> T, accepted: T -> bool, cap: Option<nat>, size: nat)
    requires size >= 1 && (cap.None? || |Forwarded(ms, keep, out, accepted)| < cap.value)
    ensures Drawn(ms, keep, out, accepted, cap, size) == |ms|
  {
    if cap.Some? {
      DrawnFromAll(ms, keep, out, accepted, cap.value, 0, size);
    }
  }
}
