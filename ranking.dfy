/**
  `sorted(items, key=..., reverse=True)`: Python's sort is stable also when
  reversed, so items with equal keys keep their input order. The order is
  built as a permutation of positions, then applied to the items.
*/
module Ranking {

  /** Position `i` comes before position `j`: a larger key, or an equal key and an earlier position. */
  predicate Precedes(keys: seq<int>, i: nat, j: nat)
    requires i < |keys| && j < |keys|
  {
    keys[i] > keys[j] || (keys[i] == keys[j] && i < j)
  }

  /** `order` lists positions of `keys`, each ranked strictly before every later one. */
  predicate Ranked(keys: seq<int>, order: seq<nat>)
  {
    (forall a :: 0 <= a < |order| ==> order[a] < |keys|) &&
    (forall a, b :: 0 <= a < b < |order| ==> Precedes(keys, order[a], order[b]))
  }

  /** Places position `x` into a ranked order. */
  function Insert(keys: seq<int>, x: nat, order: seq<nat>): (r: seq<nat>)
    requires x < |keys| && x !in order && Ranked(keys, order)
    ensures |r| == |order| + 1
    ensures forall e :: e in r <==> e in order || e == x
    ensures Ranked(keys, r)
  {
    if order == [] then [x]
    else if Precedes(keys, x, order[0]) then
      assert forall a :: 0 < a < |order| ==> Precedes(keys, order[0], order[a]);
      [x] + order
    else
      assert order == [order[0]] + order[1..];
      var rest := Insert(keys, x, order[1..]);
      assert forall e :: e in rest ==> Precedes(keys, order[0], e) by {
        forall e | e in rest ensures Precedes(keys, order[0], e) {
          if e != x {
            var a :| 0 <= a < |order[1..]| && order[1..][a] == e;
            assert order[a + 1] == e;
          }
        }
      }
      [order[0]] + rest
  }

  /** The positions `0 .. n-1` in ranked order. */
  function RankPrefix(keys: seq<int>, n: nat): (r: seq<nat>)
    requires n <= |keys|
    ensures |r| == n
    ensures forall e :: e in r <==> 0 <= e < n
    ensures Ranked(keys, r)
  {
    if n == 0 then []
    else
      var prev := RankPrefix(keys, n - 1);
      var r := Insert(keys, n - 1, prev);
      assert forall e :: e in r <==> 0 <= e < n - 1 || e == n - 1;
      r
  }

  /** The positions of `keys` from the largest key down, ties in input order. */
  function Rank(keys: seq<int>): (order: seq<nat>)
    ensures |order| == |keys|
    ensures forall e :: e in order <==> 0 <= e < |keys|
    ensures forall a :: 0 <= a < |order| ==> order[a] < |keys|
    ensures forall a, b :: 0 <= a < b < |order| ==> keys[order[a]] >= keys[order[b]]
    ensures forall a, b :: 0 <= a < b < |order| && keys[order[a]] == keys[order[b]] ==> order[a] < order[b]
  {
    RankPrefix(keys, |keys|)
  }

  /** The items listed in the order given by positions. */
  function Permute<T>(items: seq<T>, order: seq<nat>): (r: seq<T>)
    requires forall a :: 0 <= a < |order| ==> order[a] < |items|
    ensures |r| == |order|
    ensures forall a :: 0 <= a < |order| ==> r[a] == items[order[a]]
  {
    seq(|order|, a requires 0 <= a < |order| => items[order[a]])
  }

  /** `sorted(items, key=..., reverse=True)` where `keys[i]` is the key of `items[i]`. */
  function SortDesc<T>(items: seq<T>, keys: seq<int>): (r: seq<T>)
    requires |keys| == |items|
    ensures |r| == |items|
  {
    Permute(items, Rank(keys))
  }

  /**
    The sorted list is a rearrangement of the input with keys not
    increasing, and items with equal keys keep their input order.
  */
  lemma SortDescSpec<T>(items: seq<T>, keys: seq<int>)
    requires |keys| == |items|
    ensures var order := Rank(keys);
      |order| == |items| &&
      (forall i :: 0 <= i < |items| <==> i in order) &&
      (forall a :: 0 <= a < |order| ==> order[a] < |items| && SortDesc(items, keys)[a] == items[order[a]]) &&
      (forall a, b :: 0 <= a < b < |order| ==> keys[order[a]] >= keys[order[b]]) &&
      (forall a, b :: 0 <= a < b < |order| && keys[order[a]] == keys[order[b]] ==> order[a] < order[b])
  {
  }

  /** Every item appears in the sorted list exactly as often as in the input. */
  lemma {:induction false} SortDescPermutation<T>(items: seq<T>, keys: seq<int>)
    requires |keys| == |items|
    ensures multiset(SortDesc(items, keys)) == multiset(items)
  {
    var order := Rank(keys);
    assert forall a, b :: 0 <= a < b < |order| ==> Precedes(keys, order[a], order[b]);
    assert IsPermutation(order, |items|);
    PickedAll(items, order);
  }

  /** `order` lists each position of a sequence of length `n` exactly once. */
  predicate IsPermutation(order: seq<nat>, n: nat)
  {
    |order| == n &&
    (forall a :: 0 <= a < |order| ==> order[a] < n) &&
    (forall e :: 0 <= e < n ==> e in order) &&
    (forall a, b :: 0 <= a < b < |order| ==> order[a] != order[b])
  }

  /** Dropping the entry for the last position leaves a permutation of the shorter sequence. */
  lemma DropLast(order: seq<nat>, n: nat, a: nat)
    requires n > 0 && IsPermutation(order, n) && a < |order| && order[a] == n - 1
    ensures IsPermutation(order[..a] + order[a + 1..], n - 1)
  {
    var o := order[..a] + order[a + 1..];
    assert forall b :: 0 <= b < |o| ==> o[b] == (if b < a then order[b] else order[b + 1]);
    forall e | 0 <= e < n - 1 ensures e in o {
      assert e in order;
      var b :| 0 <= b < |order| && order[b] == e;
      if b < a { assert o[b] == e; } else { assert o[b - 1] == e; }
    }
  }

  /** Picking every position exactly once yields the same multiset. */
  lemma {:induction false} PickedAll<T>(items: seq<T>, order: seq<nat>)
    requires IsPermutation(order, |items|)
    ensures multiset(Permute(items, order)) == multiset(items)
    decreases |items|
  {
    if items != [] {
      var last := |items| - 1;
      assert last in order;
      var a :| 0 <= a < |order| && order[a] == last;
      var order' := order[..a] + order[a + 1..];
      var items' := items[..last];
      DropLast(order, |items|, a);
      PickedAll(items', order');
      var p' := Permute(items', order');
      PermuteInsert(items, order, a);
      SplitMultiset(p', a, items[last]);
      assert items == items' + [items[last]];
    }
  }

  /** Picking by an order whose entry `a` is the last item is picking the others and inserting it at `a`. */
  lemma PermuteInsert<T>(items: seq<T>, order: seq<nat>, a: nat)
    requires IsPermutation(order, |items|) && items != []
    requires a < |order| && order[a] == |items| - 1
    requires IsPermutation(order[..a] + order[a + 1..], |items| - 1)
    ensures var last := |items| - 1;
      var p' := Permute(items[..last], order[..a] + order[a + 1..]);
      Permute(items, order) == p'[..a] + [items[last]] + p'[a..]
  {
    var last := |items| - 1;
    var order' := order[..a] + order[a + 1..];
    var p := Permute(items, order);
    var p' := Permute(items[..last], order');
    assert |p| == |p'| + 1;
    forall b | 0 <= b < |p| ensures p[b] == (p'[..a] + [items[last]] + p'[a..])[b] {
      if b < a {
        assert order'[b] == order[b];
      } else if b > a {
        assert order'[b - 1] == order[b];
      }
    }
  }

  /** Inserting `x` anywhere adds one `x` to the multiset. */
  lemma SplitMultiset<T>(s: seq<T>, a: nat, x: T)
    requires a <= |s|
    ensures multiset(s[..a] + [x] + s[a..]) == multiset(s) + multiset{x}
  {
    assert s == s[..a] + s[a..];
  }

  /** `Rank(keys)[..n]`: the positions of the `n` highest keys, `sorted(...)[:n]`. */
  lemma TopIsHighest(keys: seq<int>, n: nat, i: nat)
    requires n <= |keys| && i < |keys| && i !in Rank(keys)[..n]
    ensures forall a :: 0 <= a < n ==> keys[Rank(keys)[a]] >= keys[i]
  {
    var order := Rank(keys);
    assert i in order;
    var b :| 0 <= b < |order| && order[b] == i;
    assert b >= n;
  }
}
