/**
  Python dictionaries whose iteration order matters (`dict`, `OrderedDict`,
  `Counter`): a sequence of entries with distinct keys in insertion order.
  Assigning to an existing key replaces its value and keeps its position;
  assigning to a new key appends it.
*/
module Dicts {
  import opened Base

  type Dict<V> = seq<(string, V)>

  function Keys<V>(d: Dict<V>): (ks: seq<string>)
    ensures |ks| == |d|
    ensures forall i :: 0 <= i < |d| ==> ks[i] == d[i].0
  {
    seq(|d|, i requires 0 <= i < |d| => d[i].0)
  }

  predicate DistinctKeys<V>(d: Dict<V>)
  {
    forall i, j :: 0 <= i < j < |d| ==> d[i].0 != d[j].0
  }

  /** The position of key `k`, if present. */
  function IndexOf<V>(d: Dict<V>, k: string): (r: Option<nat>)
    ensures r.Some? ==> r.value < |d| && d[r.value].0 == k
    ensures r.None? ==> forall i :: 0 <= i < |d| ==> d[i].0 != k
    decreases |d|
  {
    if d == [] then None
    else if d[|d| - 1].0 == k then Some(|d| - 1)
    else IndexOf(d[..|d| - 1], k)
  }

  /** `d.get(k)`. */
  function Lookup<V>(d: Dict<V>, k: string): (r: Option<V>)
    ensures r.None? <==> k !in Keys(d)
  {
    match IndexOf(d, k)
    case Some(i) => Some(d[i].1)
    case None => None
  }

  /** `d[k] = v`. */
  function Put<V>(d: Dict<V>, k: string, v: V): (r: Dict<V>)
    requires DistinctKeys(d)
    ensures DistinctKeys(r)
    ensures k in Keys(d) ==> Keys(r) == Keys(d)
    ensures k !in Keys(d) ==> Keys(r) == Keys(d) + [k]
    ensures Lookup(r, k) == Some(v)
    ensures forall k' :: k' != k ==> Lookup(r, k') == Lookup(d, k')
  {
    match IndexOf(d, k)
    case Some(i) =>
      LookupReplaced(d, i, v);
      d[i := (k, v)]
    case None =>
      LookupAppended(d, k, v);
      d + [(k, v)]
  }

  /** Replacing the value at the position of `d[i].0` changes what that key finds and nothing else. */
  lemma LookupReplaced<V>(d: Dict<V>, i: nat, v: V)
    requires DistinctKeys(d) && i < |d|
    ensures Keys(d[i := (d[i].0, v)]) == Keys(d)
    ensures DistinctKeys(d[i := (d[i].0, v)])
    ensures Lookup(d[i := (d[i].0, v)], d[i].0) == Some(v)
    ensures forall k' :: k' != d[i].0 ==> Lookup(d[i := (d[i].0, v)], k') == Lookup(d, k')
  {
    var r := d[i := (d[i].0, v)];
    assert Keys(r) == Keys(d);
    LookupAt(r, i);
    forall k' | k' != d[i].0 ensures Lookup(r, k') == Lookup(d, k') {
      var o := IndexOf(d, k');
      if o.Some? {
        LookupAt(d, o.value);
        LookupAt(r, o.value);
      }
    }
  }

  /** Appending a fresh key makes it findable and changes nothing else. */
  lemma LookupAppended<V>(d: Dict<V>, k: string, v: V)
    requires DistinctKeys(d) && k !in Keys(d)
    ensures Keys(d + [(k, v)]) == Keys(d) + [k]
    ensures DistinctKeys(d + [(k, v)])
    ensures Lookup(d + [(k, v)], k) == Some(v)
    ensures forall k' :: k' != k ==> Lookup(d + [(k, v)], k') == Lookup(d, k')
  {
    var r := d + [(k, v)];
    assert Keys(r) == Keys(d) + [k];
    LookupAt(r, |d|);
    forall k' | k' != k ensures Lookup(r, k') == Lookup(d, k') {
      var o := IndexOf(d, k');
      if o.Some? {
        LookupAt(d, o.value);
        LookupAt(r, o.value);
      }
    }
  }

  /** With distinct keys, the entry at position `i` is what `Lookup` finds for its key. */
  lemma LookupAt<V>(d: Dict<V>, i: nat)
    requires DistinctKeys(d) && i < |d|
    ensures Lookup(d, d[i].0) == Some(d[i].1)
  {
  }

  /** `d[k] = d.get(k, 0) + 1`, the `Counter` increment. */
  function Increment(d: Dict<nat>, k: string): (r: Dict<nat>)
    requires DistinctKeys(d)
    ensures DistinctKeys(r)
  {
    Put(d, k, match Lookup(d, k) case Some(n) => n + 1 case None => 1)
  }

  /** An increment adds one to the count of its key, starting from 0, and leaves the others. */
  lemma IncrementLookup(d: Dict<nat>, k: string, x: string)
    requires DistinctKeys(d)
    ensures Lookup(Increment(d, k), x)
      == if x != k then Lookup(d, x) else Some(match Lookup(d, k) case Some(n) => n + 1 case None => 1)
  {
  }

  /**
    The dictionary filled by a loop `d[k] = v` over a file, one optional
    entry per line (`None` for a skipped line): a later line overwrites the
    value of an earlier one with the same key, which keeps its position.
  */
  function FromEntries<V>(es: seq<Option<(string, V)>>): (d: Dict<V>)
    ensures DistinctKeys(d)
  {
    if es == [] then []
    else
      var prev := FromEntries(es[..|es| - 1]);
      match es[|es| - 1]
      case Some((k, v)) => Put(prev, k, v)
      case None => prev
  }

  /** An entry for key `k`. */
  predicate Offers<V>(e: Option<(string, V)>, k: string)
  {
    e.Some? && e.value.0 == k
  }

  /** What the dictionary holds for `k` after one more entry. */
  lemma FromEntriesStep<V>(es: seq<Option<(string, V)>>, k: string)
    requires es != []
    ensures Lookup(FromEntries(es), k)
      == if Offers(es[|es| - 1], k) then Some(es[|es| - 1].value.1) else Lookup(FromEntries(es[..|es| - 1]), k)
  {
  }

  /** The keys are exactly those of the entries. */
  lemma {:induction false} FromEntriesKeys<V>(es: seq<Option<(string, V)>>, k: string)
    ensures Lookup(FromEntries(es), k).Some? <==> exists i :: 0 <= i < |es| && Offers(es[i], k)
  {
    if es != [] {
      var n := |es| - 1;
      FromEntriesStep(es, k);
      FromEntriesKeys(es[..n], k);
      if exists i :: 0 <= i < |es| && Offers(es[i], k) {
        var i :| 0 <= i < |es| && Offers(es[i], k);
        if i < n {
          assert es[..n][i] == es[i];
        }
      }
      if exists i :: 0 <= i < n && Offers(es[..n][i], k) {
        var i :| 0 <= i < n && Offers(es[..n][i], k);
        assert Offers(es[i], k);
      }
    }
  }

  /** A repeated key holds the value of the last entry for it. */
  lemma {:induction false} FromEntriesLast<V>(es: seq<Option<(string, V)>>, k: string)
    requires Lookup(FromEntries(es), k).Some?
    ensures exists i :: (0 <= i < |es| && es[i] == Some((k, Lookup(FromEntries(es), k).value))
      && forall j :: i < j < |es| ==> !Offers(es[j], k))
  {
    var n := |es| - 1;
    var v := Lookup(FromEntries(es), k).value;
    FromEntriesStep(es, k);
    if Offers(es[n], k) {
      assert es[n] == Some((k, v));
    } else {
      var prev := es[..n];
      FromEntriesLast(prev, k);
      var i :| 0 <= i < n && prev[i] == Some((k, v)) && forall j :: i < j < n ==> !Offers(prev[j], k);
      NoLaterOffer(es, prev, k, i);
    }
  }

  lemma NoLaterOffer<V>(es: seq<Option<(string, V)>>, prev: seq<Option<(string, V)>>, k: string, i: nat)
    requires es != [] && prev == es[..|es| - 1] && i < |prev| && !Offers(es[|es| - 1], k)
    requires forall j :: i < j < |prev| ==> !Offers(prev[j], k)
    ensures forall j :: i < j < |es| ==> !Offers(es[j], k)
  {
    forall j | i < j < |es| ensures !Offers(es[j], k) {
      if j < |prev| {
        assert prev[j] == es[j];
      }
    }
  }

  /** A repeated key keeps the position of its first appearance. */
  lemma FromEntriesKeepsPosition<V>(es: seq<Option<(string, V)>>, e: Option<(string, V)>)
    requires e.Some? && e.value.0 in Keys(FromEntries(es))
    ensures Keys(FromEntries(es + [e])) == Keys(FromEntries(es))
  {
    assert (es + [e])[..|es|] == es;
  }

  /**
    What a lookup finds: a key is present exactly when some entry offers it,
    and then it holds the value of the last such entry.
  */
  lemma FromEntriesLookup<V>(es: seq<Option<(string, V)>>, k: string)
    ensures var e := Lookup(FromEntries(es), k);
      && (e.Some? <==> exists i :: 0 <= i < |es| && Offers(es[i], k))
      && (e.Some? ==> exists i :: (0 <= i < |es| && es[i] == Some((k, e.value))
            && forall j :: i < j < |es| ==> !Offers(es[j], k)))
  {
    FromEntriesKeys(es, k);
    if Lookup(FromEntries(es), k).Some? {
      FromEntriesLast(es, k);
    }
  }

  /** The loop `for line in file: if ok: d[k] = v` that fills the dictionary. */
  method LoadEntries<V>(es: seq<Option<(string, V)>>) returns (d: Dict<V>)
    ensures d == FromEntries(es)
  {
    d := [];
    var i := 0;
    while i < |es|
      invariant 0 <= i <= |es|
      invariant d == FromEntries(es[..i])
    {
      assert es[..i + 1][..i] == es[..i];
      if es[i].Some? {
        d := Put(d, es[i].value.0, es[i].value.1);
      }
      i := i + 1;
    }
    assert es[..|es|] == es;
  }

  /** The sum of a counter's values: `sum(counter.values())`. */
  function Total(d: Dict<nat>): nat
  {
    if d == [] then 0 else Total(d[..|d| - 1]) + d[|d| - 1].1
  }

  /** Changing one value changes the sum by the difference. */
  lemma {:induction false} TotalUpdate(d: Dict<nat>, i: nat, v: nat)
    requires i < |d|
    ensures Total(d[i := (d[i].0, v)]) == Total(d) - d[i].1 + v
  {
    var n := |d| - 1;
    var r := d[i := (d[i].0, v)];
    if i < n {
      assert r[..n] == d[..n][i := (d[i].0, v)];
      TotalUpdate(d[..n], i, v);
    } else {
      assert r[..n] == d[..n];
    }
  }

  /** Incrementing a counter adds one to its sum. */
  lemma IncrementTotal(d: Dict<nat>, k: string)
    requires DistinctKeys(d)
    ensures Total(Increment(d, k)) == Total(d) + 1
  {
    match IndexOf(d, k)
    case Some(i) =>
      TotalUpdate(d, i, d[i].1 + 1);
    case None =>
      assert (d + [(k, 1)])[..|d|] == d;
  }
}
