/**
  Keyword tables, the rule engine shared by the industry classifiers.

  A table is an ordered dictionary from a keyword to an industry label.
  Two readings of it are used:
  - first match: the label of the first keyword, in table order, that occurs
    in the text;
  - voting: the labels of every keyword that occurs (one vote per keyword),
    with the most frequent label proposed.
  An `if/elif` cascade whose conditions are `"a" in text or "b" in text` is a
  list of rules; flattening it gives a table with the same first match.
*/
module Keywords {
  import opened Base
  import opened Text

  /** The catch-all industry label ("other medical-related"). */
  const Other := "その他医療関連"

  /** An ordered keyword dictionary: keyword, industry label. */
  type Table = seq<(string, string)>

  // ---------------------------------------------------------------- voting

  /** The labels of the keywords occurring in `text`, in table order, one per keyword. */
  function Hits(t: Table, text: string): (r: seq<string>)
    ensures |r| <= |t|
  {
    if t == [] then []
    else Hits(t[..|t| - 1], text) + (if Contains(text, t[|t| - 1].0) then [t[|t| - 1].1] else [])
  }

  /** Votes of two consecutive parts of a table are the votes of each part, in order. */
  lemma {:induction false} HitsAppend(a: Table, b: Table, text: string)
    ensures Hits(a + b, text) == Hits(a, text) + Hits(b, text)
  {
    if b != [] {
      var n := |b| - 1;
      assert (a + b)[..|a + b| - 1] == a + b[..n];
      HitsAppend(a, b[..n], text);
    } else {
      assert a + b == a;
    }
  }

  /** A label gets a vote exactly when one of its keywords occurs in the text. */
  lemma {:induction false} HitsMember(t: Table, text: string, l: string)
    ensures l in Hits(t, text) <==> exists j :: 0 <= j < |t| && Contains(text, t[j].0) && t[j].1 == l
  {
    if t != [] {
      var n := |t| - 1;
      HitsMember(t[..n], text, l);
      if l in Hits(t, text) && l !in Hits(t[..n], text) {
        assert Contains(text, t[n].0) && t[n].1 == l;
      }
      if exists j :: 0 <= j < |t| && Contains(text, t[j].0) && t[j].1 == l {
        var j :| 0 <= j < |t| && Contains(text, t[j].0) && t[j].1 == l;
        if j < n {
          assert t[..n][j] == t[j];
        }
      }
    }
  }

  /** `Counter(s)[x]`: how many times `x` occurs in `s`. */
  function Count(s: seq<string>, x: string): (c: nat)
    ensures c <= |s|
    ensures c > 0 <==> x in s
  {
    if s == [] then 0 else Count(s[..|s| - 1], x) + (if s[|s| - 1] == x then 1 else 0)
  }

  /** The position of the first occurrence of `x` in `s`. */
  function FirstIndex(s: seq<string>, x: string): (i: nat)
    requires x in s
    ensures i < |s| && s[i] == x
    ensures forall j :: 0 <= j < i ==> s[j] != x
  {
    if s[0] == x then 0 else 1 + FirstIndex(s[1..], x)
  }

  /**
    The position, among the first `n`, of the first element whose count in
    `s` is maximal: the element `Counter(s).most_common(1)` picks (a
    `Counter` keeps first-occurrence order and `most_common(1)` returns the
    first maximal entry).
  */
  function MostCommonIndex(s: seq<string>, n: nat): (k: nat)
    requires 0 < n <= |s|
    ensures k < n
    ensures forall j :: 0 <= j < k ==> Count(s, s[j]) < Count(s, s[k])
    ensures forall j :: k <= j < n ==> Count(s, s[j]) <= Count(s, s[k])
  {
    if n == 1 then 0
    else
      var k := MostCommonIndex(s, n - 1);
      if Count(s, s[n - 1]) > Count(s, s[k]) then n - 1 else k
  }

  /** `Counter(s).most_common(1)[0]`: the most frequent element with its count. */
  function MostCommon(s: seq<string>): (r: (string, nat))
    requires |s| > 0
    ensures r.0 in s && r.1 == Count(s, r.0)
    ensures forall x :: x in s ==> Count(s, x) <= r.1
    ensures forall x :: x in s && x != r.0 && Count(s, x) == r.1 ==> FirstIndex(s, r.0) < FirstIndex(s, x)
  {
    var k := MostCommonIndex(s, |s|);
    assert FirstIndex(s, s[k]) == k;
    forall x | x in s ensures Count(s, x) <= Count(s, s[k]) {
      assert s[FirstIndex(s, x)] == x;
    }
    (s[k], Count(s, s[k]))
  }

  /**
    `min(0.95, 0.4 + 0.15 * n)` rounded to two decimals, in hundredths: the
    confidence given to a proposal backed by `n` votes.
  */
  function Confidence(n: nat): (c: nat)
    ensures c <= 95
    ensures n > 0 ==> 55 <= c
  {
    Min(95, 40 + 15 * n)
  }

  /** The thresholds the scripts test: 0.6 needs two votes, 0.8 needs three. */
  lemma ConfidenceThresholds(n: nat)
    ensures Confidence(n) >= 60 <==> n >= 2
    ensures Confidence(n) >= 80 <==> n >= 3
    ensures n >= 4 ==> Confidence(n) == 95
  {
  }

  /** The loop `for k, v in table.items(): if k in t: hits.append(v)`. */
  method CollectHits(t: Table, text: string) returns (hits: seq<string>)
    ensures hits == Hits(t, text)
  {
    hits := [];
    var i := 0;
    while i < |t|
      invariant 0 <= i <= |t|
      invariant hits == Hits(t[..i], text)
    {
      assert t[..i + 1][..i] == t[..i];
      if Contains(text, t[i].0) {
        hits := hits + [t[i].1];
      }
      i := i + 1;
    }
    assert t[..|t|] == t;
  }

  // ----------------------------------------------------------- first match

  /** The position of the first keyword occurring in `text`. */
  function FirstMatchIndex(t: Table, text: string): (r: Option<nat>)
    ensures r.Some? ==> r.value < |t| && Contains(text, t[r.value].0)
    ensures r.Some? ==> forall j :: 0 <= j < r.value ==> !Contains(text, t[j].0)
    ensures r.None? ==> forall j :: 0 <= j < |t| ==> !Contains(text, t[j].0)
  {
    if t == [] then None
    else if Contains(text, t[0].0) then Some(0)
    else
      match FirstMatchIndex(t[1..], text)
      case None => None
      case Some(i) => Some(i + 1)
  }

  /** `for k, v in table.items(): if k in text: return v`, with `None` when no keyword occurs. */
  function FirstMatch(t: Table, text: string): Option<string>
  {
    match FirstMatchIndex(t, text)
    case None => None
    case Some(i) => Some(t[i].1)
  }

  /** First match and voting agree: the first match is the first vote. */
  lemma FirstMatchIsFirstHit(t: Table, text: string)
    ensures FirstMatch(t, text).None? <==> Hits(t, text) == []
    ensures FirstMatch(t, text).Some? ==> FirstMatch(t, text).value == Hits(t, text)[0]
  {
    match FirstMatchIndex(t, text)
    case None =>
      if Hits(t, text) != [] {
        HitsMember(t, text, Hits(t, text)[0]);
      }
    case Some(i) =>
      assert t == t[..i] + ([t[i]] + t[i + 1..]);
      HitsAppend(t[..i], [t[i]] + t[i + 1..], text);
      HitsAppend([t[i]], t[i + 1..], text);
      if Hits(t[..i], text) != [] {
        HitsMember(t[..i], text, Hits(t[..i], text)[0]);
      }
      assert Hits([t[i]], text) == Hits([], text) + [t[i].1];
  }

  /** The first match of a table split in two: the first part's, else the second part's. */
  lemma FirstMatchAppend(a: Table, b: Table, text: string)
    ensures FirstMatch(a + b, text) == if FirstMatch(a, text).Some? then FirstMatch(a, text) else FirstMatch(b, text)
  {
    var ab := a + b;
    assert forall j :: 0 <= j < |a| ==> ab[j] == a[j];
    assert forall j :: |a| <= j < |ab| ==> ab[j] == b[j - |a|];
    match FirstMatchIndex(a, text)
    case Some(i) =>
      assert ab[i] == a[i];
    case None =>
      match FirstMatchIndex(b, text)
      case Some(i) =>
        assert ab[|a| + i] == b[i];
      case None =>
  }

  /** The loop of a first-match lookup, returning as soon as a keyword occurs. */
  method FindFirst(t: Table, text: string) returns (r: Option<string>)
    ensures r == FirstMatch(t, text)
  {
    var i := 0;
    while i < |t|
      invariant 0 <= i <= |t|
      invariant forall j :: 0 <= j < i ==> !Contains(text, t[j].0)
    {
      if Contains(text, t[i].0) {
        var m := FirstMatchIndex(t, text);
        assert m.Some? && m.value == i;
        return Some(t[i].1);
      }
      i := i + 1;
    }
    return None;
  }

  // -------------------------------------------------------------- cascades

  /** One branch of a cascade: `if k1 in text or k2 in text ...: return industry`. */
  type Rules = seq<(seq<string>, string)>

  predicate Fires(keys: seq<string>, text: string)
  {
    exists k :: k in keys && Contains(text, k)
  }

  /** The industry of the first branch whose condition holds, `None` when all fail. */
  function Cascade(rules: Rules, text: string): Option<string>
  {
    if rules == [] then None
    else if Fires(rules[0].0, text) then Some(rules[0].1)
    else Cascade(rules[1..], text)
  }

  /**
    A cascade answers `None` exactly when no branch fires; otherwise it
    answers the industry of a branch that fires with none firing before it.
  */
  lemma {:induction false} CascadeSpec(rules: Rules, text: string)
    ensures Cascade(rules, text).None? <==> forall i :: 0 <= i < |rules| ==> !Fires(rules[i].0, text)
    ensures Cascade(rules, text).Some? ==>
      (exists i :: 0 <= i < |rules| && Fires(rules[i].0, text) && Cascade(rules, text).value == rules[i].1
        && forall j :: 0 <= j < i ==> !Fires(rules[j].0, text))
  {
    if rules != [] && !Fires(rules[0].0, text) {
      var rest := rules[1..];
      CascadeSpec(rest, text);
      assert forall i :: 1 <= i < |rules| ==> rules[i] == rest[i - 1];
      if Cascade(rules, text).Some? {
        var i :| 0 <= i < |rest| && Fires(rest[i].0, text) && Cascade(rest, text).value == rest[i].1
          && forall j :: 0 <= j < i ==> !Fires(rest[j].0, text);
        assert forall j :: 0 <= j < i + 1 ==> !Fires(rules[j].0, text);
      }
    }
  }

  /** When none of the first `n` branches fires, the cascade decides as the rest of it. */
  lemma {:induction false} CascadeSkip(rules: Rules, n: nat, text: string)
    requires n <= |rules|
    requires forall i :: 0 <= i < n ==> !Fires(rules[i].0, text)
    ensures Cascade(rules, text) == Cascade(rules[n..], text)
  {
    if n > 0 {
      assert rules[1..][n - 1..] == rules[n..];
      assert forall i :: 0 <= i < n - 1 ==> rules[1..][i] == rules[i + 1];
      CascadeSkip(rules[1..], n - 1, text);
    }
  }

  /** The table of one branch: each of its keywords mapped to its industry. */
  function Pairs(keys: seq<string>, industry: string): (t: Table)
    ensures |t| == |keys|
    ensures forall i :: 0 <= i < |keys| ==> t[i] == (keys[i], industry)
  {
    seq(|keys|, i requires 0 <= i < |keys| => (keys[i], industry))
  }

  /** The keyword table a cascade amounts to. */
  function Flatten(rules: Rules): Table
  {
    if rules == [] then [] else Pairs(rules[0].0, rules[0].1) + Flatten(rules[1..])
  }

  /** A cascade decides as the first-match lookup of its flattened table. */
  lemma {:induction false} CascadeIsFirstMatch(rules: Rules, text: string)
    ensures Cascade(rules, text) == FirstMatch(Flatten(rules), text)
  {
    if rules != [] {
      var p := Pairs(rules[0].0, rules[0].1);
      FirstMatchAppend(p, Flatten(rules[1..]), text);
      CascadeIsFirstMatch(rules[1..], text);
      match FirstMatchIndex(p, text)
      case Some(i) =>
        assert rules[0].0[i] in rules[0].0;
      case None =>
    }
  }
}
