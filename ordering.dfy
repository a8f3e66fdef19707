/**
 * `order_by('order')`: the store hands a workflow's components back sorted by
 * their `order` field. Ties are left in the order the store lists them
 * (a stable sort), since the source does not break them.
 */
module Ordering {
  import opened Models

  predicate Ascending(cs: seq<Component>) {
    forall i, j :: 0 <= i < j < |cs| ==> cs[i].order <= cs[j].order
  }

  function Insert(c: Component, s: seq<Component>): (r: seq<Component>)
    ensures multiset(r) == multiset(s) + multiset{c}
  {
    if s == [] || c.order <= s[0].order then [c] + s
    else
      assert s == [s[0]] + s[1..];
      [s[0]] + Insert(c, s[1..])
  }

  /** Insertion puts either the new component or the old head first. */
  lemma InsertHead(c: Component, s: seq<Component>)
    ensures Insert(c, s) != []
    ensures Insert(c, s)[0] == c || (s != [] && Insert(c, s)[0] == s[0])
  {
  }

  /** Inserting into an ascending sequence keeps it ascending. */
  lemma {:induction false} InsertAscending(c: Component, s: seq<Component>)
    requires Ascending(s)
    ensures Ascending(Insert(c, s))
  {
    if s != [] && c.order > s[0].order {
      var tail := s[1..];
      var rest := Insert(c, tail);
      InsertAscending(c, tail);
      InsertHead(c, tail);
      assert s[0].order <= rest[0].order by {
        if rest[0] != c {
          assert rest[0] == s[1];
        }
      }
      var r := [s[0]] + rest;
      forall i, j | 0 <= i < j < |r| ensures r[i].order <= r[j].order {
        assert r[j] == rest[j - 1];
        if i > 0 {
          assert r[i] == rest[i - 1];
        }
      }
    }
  }

  /** The components in ascending `order`, a permutation of the input. */
  function SortByOrder(cs: seq<Component>): (r: seq<Component>)
    ensures Ascending(r)
    ensures multiset(r) == multiset(cs)
    ensures |r| == |cs|
  {
    if cs == [] then []
    else
      assert cs == [cs[0]] + cs[1..];
      InsertAscending(cs[0], SortByOrder(cs[1..]));
      Insert(cs[0], SortByOrder(cs[1..]))
  }
}
