/** JavaScript's `Array.prototype.filter` on a list. */
module Sequences {

  /** `items.filter(keep)`: the elements `keep` accepts, in their order,
      each as often as it occurs. */
  function Filter<T(!new)>(items: seq<T>, keep: T -> bool): (r: seq<T>)
    ensures |r| <= |items|
  {
    if items == [] then []
    else (if keep(items[0]) then [items[0]] else []) + Filter(items[1..], keep)
  }

  /** The result holds exactly the accepted elements, and is the whole list
      when every element is accepted. */
  lemma {:induction false} FilterMembers<T(!new)>(items: seq<T>, keep: T -> bool)
    ensures forall x :: x in Filter(items, keep) <==> x in items && keep(x)
    ensures (forall i :: 0 <= i < |items| ==> keep(items[i])) ==> Filter(items, keep) == items
  {
    if items != [] {
      FilterMembers(items[1..], keep);
      assert items == [items[0]] + items[1..];
      if forall i :: 0 <= i < |items| ==> keep(items[i]) {
        assert forall i :: 0 <= i < |items[1..]| ==> keep(items[1..][i]) by {
          forall i | 0 <= i < |items[1..]| ensures keep(items[1..][i]) {
            assert items[1..][i] == items[i + 1];
          }
        }
      }
    }
  }

  /** Each accepted element is kept as often as it occurs, the others never. */
  lemma {:induction false} FilterCounts<T(!new)>(items: seq<T>, keep: T -> bool)
    ensures forall x :: multiset(Filter(items, keep))[x] == if keep(x) then multiset(items)[x] else 0
  {
    if items != [] {
      var head := if keep(items[0]) then [items[0]] else [];
      var rest := Filter(items[1..], keep);
      FilterCounts(items[1..], keep);
      assert items == [items[0]] + items[1..];
      assert multiset(items) == multiset([items[0]]) + multiset(items[1..]);
      assert multiset(Filter(items, keep)) == multiset(head) + multiset(rest);
    }
  }

  /** Filtering keeps the order: the filter of a concatenation is the
      concatenation of the filters. With the one-element case this fixes
      the result completely. */
  lemma {:induction false} FilterConcat<T(!new)>(a: seq<T>, b: seq<T>, keep: T -> bool)
    ensures Filter(a + b, keep) == Filter(a, keep) + Filter(b, keep)
  {
    if a == [] {
      assert a + b == b;
    } else {
      var head := if keep(a[0]) then [a[0]] else [];
      assert (a + b)[0] == a[0];
      assert (a + b)[1..] == a[1..] + b;
      assert Filter(a + b, keep) == head + Filter(a[1..] + b, keep);
      FilterConcat(a[1..], b, keep);
      assert Filter(a, keep) == head + Filter(a[1..], keep);
    }
  }
}
