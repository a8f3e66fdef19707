/**
 * `_get_components_in_path`: which components a sub-run executes. The two
 * boundary components are put in ascending order (their include flags travel
 * with them), then the workflow's components, already in ascending order, are
 * filtered by one of four order comparisons chosen by the flags.
 */
module RangeSelector {
  import opened Models
  import opened Ordering

  /** The two boundary components and whether each is itself executed. */
  datatype Bounds = Bounds(start: Component, end: Component, includeStart: bool, includeEnd: bool)

  /** The same boundaries given the other way round. */
  function Flip(b: Bounds): Bounds {
    Bounds(b.end, b.start, b.includeEnd, b.includeStart)
  }

  /** Swap the boundaries, flags included, when the start comes after the end. */
  function Normalize(b: Bounds): (n: Bounds)
    ensures n.start.order <= n.end.order
    ensures n == b || n == Flip(b)
    ensures b.start.order <= b.end.order ==> n == b
  {
    if b.start.order > b.end.order then Flip(b) else b
  }

  /** Normalizing is idempotent, and normalizing the flipped boundaries differs only when both orders coincide. */
  lemma NormalizeFlip(b: Bounds)
    ensures Normalize(Normalize(b)) == Normalize(b)
    ensures b.start.order != b.end.order ==> Normalize(Flip(b)) == Normalize(b)
  {
  }

  /** The components of `s` whose order satisfies `p`, in their order in `s`. */
  function Filter(s: seq<Component>, p: nat -> bool): (r: seq<Component>)
    ensures |r| <= |s|
  {
    if s == [] then []
    else (if p(s[0].order) then [s[0]] else []) + Filter(s[1..], p)
  }

  /** Exactly the components of `s` that pass the test are kept. */
  lemma {:induction false} FilterMembers(s: seq<Component>, p: nat -> bool, c: Component)
    ensures c in Filter(s, p) <==> c in s && p(c.order)
  {
    if s != [] {
      FilterMembers(s[1..], p, c);
      assert s == [s[0]] + s[1..];
    }
  }

  /** The four boundary policies of the source, one order comparison pair each. */
  function SelectComponents(all: seq<Component>, b: Bounds): seq<Component> {
    var n := Normalize(b);
    var lo, hi := n.start.order, n.end.order;
    if n.includeStart && n.includeEnd then Filter(all, (o: nat) => lo <= o && o <= hi)
    else if n.includeStart && !n.includeEnd then Filter(all, (o: nat) => lo <= o && o < hi)
    else if !n.includeStart && n.includeEnd then Filter(all, (o: nat) => lo < o && o <= hi)
    else Filter(all, (o: nat) => lo < o && o < hi)
  }

  /** The lower boundary test: strictly above the start, or at it when the start is included. */
  predicate AboveStart(n: Bounds, o: nat) {
    n.start.order < o || (n.includeStart && o == n.start.order)
  }

  /** The upper boundary test: strictly below the end, or at it when the end is included. */
  predicate BelowEnd(n: Bounds, o: nat) {
    o < n.end.order || (n.includeEnd && o == n.end.order)
  }

  /** An order lies in the window when it passes both tests against the normalized boundaries. */
  predicate InWindow(b: Bounds, o: nat) {
    AboveStart(Normalize(b), o) && BelowEnd(Normalize(b), o)
  }

  lemma {:induction false} FilterExt(s: seq<Component>, p: nat -> bool, q: nat -> bool)
    requires forall o :: p(o) == q(o)
    ensures Filter(s, p) == Filter(s, q)
  {
    if s != [] {
      FilterExt(s[1..], p, q);
    }
  }

  /** Whatever branch is taken, the selection is the filter by `InWindow`. */
  lemma SelectIsWindowFilter(all: seq<Component>, b: Bounds)
    ensures SelectComponents(all, b) == Filter(all, (o: nat) => InWindow(b, o))
  {
    var n := Normalize(b);
    var lo, hi := n.start.order, n.end.order;
    var w := (o: nat) => InWindow(b, o);
    if n.includeStart && n.includeEnd {
      FilterExt(all, (o: nat) => lo <= o && o <= hi, w);
    } else if n.includeStart && !n.includeEnd {
      FilterExt(all, (o: nat) => lo <= o && o < hi, w);
    } else if !n.includeStart && n.includeEnd {
      FilterExt(all, (o: nat) => lo < o && o <= hi, w);
    } else {
      FilterExt(all, (o: nat) => lo < o && o < hi, w);
    }
  }

  /** Exactly the workflow's components whose order lies within the flag-chosen bounds are selected. */
  lemma SelectMembership(all: seq<Component>, b: Bounds, c: Component)
    ensures c in SelectComponents(all, b) <==> c in all && InWindow(b, c.order)
  {
    SelectIsWindowFilter(all, b);
    FilterMembers(all, (o: nat) => InWindow(b, o), c);
  }

  /** Giving the boundaries the other way round, each with its own flag, selects the same sequence. */
  lemma SelectSymmetric(all: seq<Component>, b: Bounds)
    ensures SelectComponents(all, Flip(b)) == SelectComponents(all, b)
  {
    SelectIsWindowFilter(all, b);
    SelectIsWindowFilter(all, Flip(b));
    if b.start.order == b.end.order {
      assert forall o :: InWindow(b, o) == InWindow(Flip(b), o);
    }
    FilterExt(all, (o: nat) => InWindow(b, o), (o: nat) => InWindow(Flip(b), o));
  }

  /** Boundaries of equal order select something only if both are included, and then exactly the components of that order. */
  lemma SameOrderWindow(all: seq<Component>, b: Bounds)
    requires b.start.order == b.end.order
    ensures SelectComponents(all, b) != [] ==> b.includeStart && b.includeEnd
    ensures b.includeStart && b.includeEnd ==>
      forall c :: c in SelectComponents(all, b) <==> c in all && c.order == b.start.order
  {
    if SelectComponents(all, b) != [] {
      SelectMembership(all, b, SelectComponents(all, b)[0]);
    }
    forall c ensures c in SelectComponents(all, b) <==> c in all && InWindow(b, c.order) {
      SelectMembership(all, b, c);
    }
  }

  /** A test that holds exactly on the indices `i..j` of `s` holds exactly on `i - 1..j - 1` of its tail, cut at zero. */
  lemma WindowShift(s: seq<Component>, p: nat -> bool, i: nat, j: nat)
    requires s != [] && i <= j <= |s|
    requires forall k :: 0 <= k < |s| ==> (p(s[k].order) <==> i <= k < j)
    ensures var i', j' := if i == 0 then 0 else i - 1, if j == 0 then 0 else j - 1;
      forall k :: 0 <= k < |s| - 1 ==> (p(s[1..][k].order) <==> i' <= k < j')
  {
    forall k | 0 <= k < |s| - 1 ensures s[1..][k] == s[k + 1] {
    }
  }

  /** Filtering by a test that holds exactly on the indices `i..j` gives the slice `s[i..j]`. */
  lemma {:induction false} FilterSlice(s: seq<Component>, p: nat -> bool, i: nat, j: nat)
    requires i <= j <= |s|
    requires forall k :: 0 <= k < |s| ==> (p(s[k].order) <==> i <= k < j)
    ensures Filter(s, p) == s[i..j]
  {
    if s != [] {
      var t := s[1..];
      var i', j' := if i == 0 then 0 else i - 1, if j == 0 then 0 else j - 1;
      WindowShift(s, p, i, j);
      FilterSlice(t, p, i', j');
      if p(s[0].order) {
        assert i == 0 && s[i..j] == [s[0]] + t[i'..j'];
      } else if i > 0 {
        assert s[i..j] == t[i'..j'];
      } else {
        assert j == 0;
      }
    }
  }

  /** The length of the longest prefix of `s` whose orders all satisfy `p`. */
  function PrefixWhile(s: seq<Component>, p: nat -> bool): (n: nat)
    ensures n <= |s|
  {
    if s == [] || !p(s[0].order) then 0 else 1 + PrefixWhile(s[1..], p)
  }

  /** On an ascending sequence a test that is closed downwards holds exactly on a prefix. */
  lemma {:induction false} PrefixWhileExact(s: seq<Component>, p: nat -> bool)
    requires Ascending(s)
    requires forall x: nat, y: nat :: x <= y && p(y) ==> p(x)
    ensures forall k :: 0 <= k < |s| ==> (p(s[k].order) <==> k < PrefixWhile(s, p))
  {
    if s != [] {
      PrefixWhileExact(s[1..], p);
      if !p(s[0].order) {
        forall k | 0 <= k < |s| ensures !p(s[k].order) {
          assert s[0].order <= s[k].order;
        }
      } else {
        forall k | 0 <= k < |s| ensures p(s[k].order) <==> k < PrefixWhile(s, p) {
          if k > 0 {
            assert s[k] == s[1..][k - 1];
          }
        }
      }
    }
  }

  /** On the ascending component list the selection is one contiguous slice of it. */
  lemma SelectIsSlice(all: seq<Component>, b: Bounds)
    requires Ascending(all)
    ensures exists i, j :: 0 <= i <= j <= |all| && SelectComponents(all, b) == all[i..j]
  {
    var n := Normalize(b);
    var below := (o: nat) => !AboveStart(n, o);
    var upper := (o: nat) => BelowEnd(n, o);
    PrefixWhileExact(all, below);
    PrefixWhileExact(all, upper);
    var i := PrefixWhile(all, below);
    var j := if PrefixWhile(all, upper) < i then i else PrefixWhile(all, upper);
    SelectIsWindowFilter(all, b);
    FilterSlice(all, (o: nat) => InWindow(b, o), i, j);
  }

  /** The selection keeps the ascending order of the full list. */
  lemma SelectAscending(all: seq<Component>, b: Bounds)
    requires Ascending(all)
    ensures Ascending(SelectComponents(all, b))
  {
    SelectIsSlice(all, b);
  }
}
