/**
  `analyze_keywords_and_suggest_map.py`: count the tokens of the raw keyword
  and domain columns of every company, list them from the most frequent
  down, and propose an industry for each token that contains a hint word.
*/
module KeywordAnalysis {
  import opened Base
  import opened Text
  import opened Dicts
  import opened Keywords
  import opened Ranking

  // ------------------------------------------------------------------ tokens

  /** `[t.strip().lower() for t in pieces if t.strip()]`. */
  function CleanTokens(pieces: seq<string>): (ts: seq<string>)
    ensures |ts| <= |pieces|
  {
    if pieces == [] then []
    else
      var t := Strip(pieces[0]);
      (if t == "" then [] else [Lower(t)]) + CleanTokens(pieces[1..])
  }

  /** The tokens of one cell: `;` counts as `,`, pieces are stripped and lowered, blank pieces dropped. */
  function Tokens(part: string): seq<string>
  {
    CleanTokens(Split(ReplaceChar(part, ';', ','), ','))
  }

  /** A token as the script produces it: non-empty, no upper-case ASCII, no separator, no surrounding whitespace. */
  predicate CleanToken(t: string)
  {
    t != "" && ',' !in t && ';' !in t && NoAsciiUpper(t) && !IsSpace(t[0]) && !IsSpace(t[|t| - 1])
  }

  /** A piece without separators and not blank becomes a clean token. */
  lemma CleanPiece(p: string)
    requires ',' !in p && ';' !in p && Strip(p) != ""
    ensures CleanToken(Lower(Strip(p)))
  {
    var t := Strip(p);
    StripChars(p);
    LowerIdempotent(t);
    var l := Lower(t);
    forall i | 0 <= i < |l| ensures l[i] != ',' && l[i] != ';' {
      assert t[i] in p;
    }
  }

  lemma {:induction false} CleanTokensClean(pieces: seq<string>)
    requires forall i :: 0 <= i < |pieces| ==> ',' !in pieces[i] && ';' !in pieces[i]
    ensures AllClean(CleanTokens(pieces))
    decreases |pieces|
  {
    if pieces != [] {
      CleanTokensClean(pieces[1..]);
      var t := Strip(pieces[0]);
      if t != "" {
        CleanPiece(pieces[0]);
      }
      AllCleanConcat(if t == "" then [] else [Lower(t)], CleanTokens(pieces[1..]));
    }
  }

  /** Every token of a list is clean. */
  predicate AllClean(ts: seq<string>)
  {
    forall i :: 0 <= i < |ts| ==> CleanToken(ts[i])
  }

  lemma AllCleanConcat(a: seq<string>, b: seq<string>)
    requires AllClean(a) && AllClean(b)
    ensures AllClean(a + b)
  {
    forall i | 0 <= i < |a + b| ensures CleanToken((a + b)[i]) {
      if i >= |a| {
        assert (a + b)[i] == b[i - |a|];
      }
    }
  }

  /** Whatever a cell holds, every token taken from it is clean. */
  lemma TokensClean(part: string)
    ensures AllClean(Tokens(part))
  {
    var s := ReplaceChar(part, ';', ',');
    var pieces := Split(s, ',');
    SplitPiecesFree(s, ',');
    forall i | 0 <= i < |pieces| ensures ',' !in pieces[i] && ';' !in pieces[i] {
      if ';' in pieces[i] {
        SplitChars(s, ',', i, ';');
      }
    }
    CleanTokensClean(pieces);
  }

  /** A cell holding one keyword gives that keyword stripped and lowered; a blank cell gives nothing. */
  lemma TokensSingle(part: string)
    requires ',' !in part && ';' !in part
    ensures Tokens(part) == if Strip(part) == "" then [] else [Lower(Strip(part))]
  {
    assert ReplaceChar(part, ';', ',') == part;
    SplitNoSeparator(part, ',');
    assert [part][1..] == [];
  }

  lemma {:induction false} CleanTokensConcat(x: seq<string>, y: seq<string>)
    ensures CleanTokens(x + y) == CleanTokens(x) + CleanTokens(y)
    decreases |x|
  {
    if x != [] {
      assert (x + y)[1..] == x[1..] + y;
      CleanTokensConcat(x[1..], y);
    } else {
      assert x + y == y;
    }
  }

  /** A cell `a,b` or `a;b` gives the tokens of `a` followed by those of `b`. */
  lemma TokensJoin(a: string, c: char, b: string)
    requires c == ',' || c == ';'
    ensures Tokens(a + [c] + b) == Tokens(a) + Tokens(b)
  {
    var ra, rb := ReplaceChar(a, ';', ','), ReplaceChar(b, ';', ',');
    ReplaceCharConcat(a, c, b, ';', ',');
    SplitConcat(ra, rb, ',');
    CleanTokensConcat(Split(ra, ','), Split(rb, ','));
  }

  // ---------------------------------------------------------------- counting

  /** The tokens of a row: those of its keyword cell, then those of its domain cell. */
  function RowTokens(row: Row): seq<string>
  {
    Tokens(Get(row, "raw_medical_keywords")) + Tokens(Get(row, "raw_medical_domains"))
  }

  /** Every token counted from the rows, in the order the loop meets them. */
  function AllTokens(rows: seq<Row>): seq<string>
  {
    if rows == [] then [] else AllTokens(rows[..|rows| - 1]) + RowTokens(rows[|rows| - 1])
  }

  lemma RowTokensClean(row: Row)
    ensures AllClean(RowTokens(row))
  {
    TokensClean(Get(row, "raw_medical_keywords"));
    TokensClean(Get(row, "raw_medical_domains"));
    AllCleanConcat(Tokens(Get(row, "raw_medical_keywords")), Tokens(Get(row, "raw_medical_domains")));
  }

  /** Every counted token is clean. */
  lemma {:induction false} AllTokensClean(rows: seq<Row>)
    ensures AllClean(AllTokens(rows))
  {
    if rows != [] {
      var n := |rows| - 1;
      AllTokensClean(rows[..n]);
      RowTokensClean(rows[n]);
      AllCleanConcat(AllTokens(rows[..n]), RowTokens(rows[n]));
    }
  }

  /** Counting the tokens `ts` one after another into an existing counter. */
  function TallyFrom(d: Dict<nat>, ts: seq<string>): (r: Dict<nat>)
    requires DistinctKeys(d)
    ensures DistinctKeys(r)
    decreases |ts|
  {
    if ts == [] then d else TallyFrom(Increment(d, ts[0]), ts[1..])
  }

  /** Counting `a + b` is counting `a`, then `b`. */
  lemma {:induction false} TallyFromAppend(d: Dict<nat>, a: seq<string>, b: seq<string>)
    requires DistinctKeys(d)
    ensures TallyFrom(d, a + b) == TallyFrom(TallyFrom(d, a), b)
    decreases |a|
  {
    if a == [] {
      assert a + b == b;
    } else {
      assert (a + b)[0] == a[0] && (a + b)[1..] == a[1..] + b;
      TallyFromAppend(Increment(d, a[0]), a[1..], b);
    }
  }

  /** The `Counter` after `counter[t] += 1` for each token in turn. */
  function Tally(ts: seq<string>): (d: Dict<nat>)
    ensures DistinctKeys(d)
  {
    TallyFrom([], ts)
  }

  /** Counting one more token increments its count. */
  lemma TallySnoc(ts: seq<string>, x: string)
    ensures Tally(ts + [x]) == Increment(Tally(ts), x)
  {
    TallyFromAppend([], ts, [x]);
  }

  /** The counter holds exactly the tokens seen, each with its number of occurrences. */
  lemma {:induction false} TallyCounts(ts: seq<string>, x: string)
    ensures Lookup(Tally(ts), x) == if x in ts then Some(Count(ts, x)) else None
  {
    if ts != [] {
      var n := |ts| - 1;
      var prev, last := ts[..n], ts[n];
      assert ts == prev + [last];
      TallySnoc(prev, last);
      assert Tally(ts) == Increment(Tally(prev), last);
      TallyCounts(prev, x);
      IncrementLookup(Tally(prev), last, x);
      assert Count(ts, x) == Count(prev, x) + (if last == x then 1 else 0);
      assert x in ts <==> x in prev || x == last;
    }
  }

  /** The distinct elements of `s` in the order of their first occurrence. */
  function Distinct(s: seq<string>): (r: seq<string>)
    ensures forall x :: x in r <==> x in s
  {
    if s == [] then []
    else
      var n := |s| - 1;
      assert s == s[..n] + [s[n]];
      Distinct(s[..n]) + (if s[n] in s[..n] then [] else [s[n]])
  }

  /** The counter lists the tokens in the order of their first occurrence. */
  lemma {:induction false} TallyKeys(ts: seq<string>)
    ensures Keys(Tally(ts)) == Distinct(ts)
  {
    if ts != [] {
      var n := |ts| - 1;
      TallyKeys(ts[..n]);
      TallyCounts(ts[..n], ts[n]);
      TallySnoc(ts[..n], ts[n]);
      assert ts == ts[..n] + [ts[n]];
    }
  }

  /** A first occurrence within a prefix is the first occurrence in the whole. */
  lemma FirstIndexPrefix(s: seq<string>, n: nat, x: string)
    requires n <= |s| && x in s[..n]
    ensures FirstIndex(s, x) == FirstIndex(s[..n], x) < n
  {
    var i, j := FirstIndex(s, x), FirstIndex(s[..n], x);
    assert s[j] == x;
  }

  /** Each element of `Distinct(s)` occurs first in `s` before the next one does. */
  lemma {:induction false} DistinctOrder(s: seq<string>)
    ensures forall a, b :: 0 <= a < b < |Distinct(s)| ==> FirstIndex(s, Distinct(s)[a]) < FirstIndex(s, Distinct(s)[b])
  {
    if s != [] {
      var n := |s| - 1;
      var d := Distinct(s[..n]);
      DistinctOrder(s[..n]);
      forall a | 0 <= a < |d|
        ensures d[a] in s[..n] && d[a] in s && FirstIndex(s, d[a]) == FirstIndex(s[..n], d[a]) < n
      {
        assert d[a] in d;
        FirstIndexPrefix(s, n, d[a]);
      }
      if s[n] !in s[..n] {
        assert FirstIndex(s, s[n]) == n;
      }
    }
  }

  /** The counts add up to the number of tokens. */
  lemma {:induction false} TallyTotal(ts: seq<string>)
    ensures Total(Tally(ts)) == |ts|
  {
    if ts != [] {
      TallyTotal(ts[..|ts| - 1]);
      IncrementTotal(Tally(ts[..|ts| - 1]), ts[|ts| - 1]);
      TallySnoc(ts[..|ts| - 1], ts[|ts| - 1]);
      assert ts == ts[..|ts| - 1] + [ts[|ts| - 1]];
    }
  }

  /** Counting more tokens into the counter of `a` gives the counter of `a + b`. */
  lemma TallyFromTally(a: seq<string>, b: seq<string>)
    ensures TallyFrom(Tally(a), b) == Tally(a + b)
  {
    TallyFromAppend([], a, b);
  }

  /** The innermost loop: count each token of one cell. */
  method CountCell(counter: Dict<nat>, ts: seq<string>) returns (counter': Dict<nat>)
    requires DistinctKeys(counter)
    ensures counter' == TallyFrom(counter, ts)
  {
    counter' := counter;
    for j := 0 to |ts|
      invariant DistinctKeys(counter')
      invariant TallyFrom(counter', ts[j..]) == TallyFrom(counter, ts)
    {
      assert ts[j..][1..] == ts[j + 1..];
      counter' := Increment(counter', ts[j]);
    }
  }

  /** The tokens of one more row follow those counted so far. */
  lemma AllTokensSnoc(rows: seq<Row>, i: nat)
    requires i < |rows|
    ensures AllTokens(rows[..i + 1]) == AllTokens(rows[..i]) + RowTokens(rows[i])
  {
    assert rows[..i + 1][..i] == rows[..i];
    assert rows[..i + 1][i] == rows[i];
  }

  /** The loop over the two cells of a row: the keyword cell, then the domain cell. */
  method CountRow(counter: Dict<nat>, row: Row) returns (counter': Dict<nat>)
    requires DistinctKeys(counter)
    ensures counter' == TallyFrom(counter, RowTokens(row))
  {
    var kws := Tokens(Get(row, "raw_medical_keywords"));
    var doms := Tokens(Get(row, "raw_medical_domains"));
    TallyFromAppend(counter, kws, doms);
    counter' := CountCell(counter, kws);
    counter' := CountCell(counter', doms);
  }

  /** The reading loop: for each row, for each of its two cells, count each token. */
  method CountTokens(rows: seq<Row>) returns (counter: Dict<nat>)
    ensures counter == Tally(AllTokens(rows))
  {
    counter := [];
    for i := 0 to |rows|
      invariant counter == Tally(AllTokens(rows[..i]))
    {
      counter := CountRow(counter, rows[i]);
      TallyFromTally(AllTokens(rows[..i]), RowTokens(rows[i]));
      AllTokensSnoc(rows, i);
    }
    assert rows[..|rows|] == rows;
  }

  // ---------------------------------------------------------------- frequency

  /** The counts of a counter, as sort keys. */
  function Counts(d: Dict<nat>): (ks: seq<int>)
    ensures |ks| == |d|
    ensures forall i :: 0 <= i < |d| ==> ks[i] == d[i].1
  {
    seq(|d|, i requires 0 <= i < |d| => d[i].1 as int)
  }

  /** `counter.most_common()`: every entry, from the highest count down, ties in counter order. */
  function MostCommonAll(d: Dict<nat>): (r: Dict<nat>)
    ensures |r| == |d|
  {
    SortDesc(d, Counts(d))
  }

  /** `Counter(ts).most_common()` for the tokens `ts` counted in order. */
  function MostCommonTokens(ts: seq<string>): Dict<nat>
  {
    MostCommonAll(Tally(ts))
  }

  /** Each entry is a token of `ts` with its exact number of occurrences. */
  lemma MostCommonEntries(ts: seq<string>, a: nat)
    requires a < |MostCommonTokens(ts)|
    ensures var e := MostCommonTokens(ts)[a];
      e.0 in ts && e.1 == Count(ts, e.0)
  {
    var d := Tally(ts);
    SortDescSpec(d, Counts(d));
    var i := Rank(Counts(d))[a];
    LookupAt(d, i);
    TallyCounts(ts, d[i].0);
  }

  /** Every token of `ts` has an entry, and only one. */
  lemma MostCommonComplete(ts: seq<string>, x: string)
    requires x in ts
    ensures exists a :: 0 <= a < |MostCommonTokens(ts)| && MostCommonTokens(ts)[a] == (x, Count(ts, x))
    ensures forall a, b :: 0 <= a < b < |MostCommonTokens(ts)| ==> MostCommonTokens(ts)[a].0 != MostCommonTokens(ts)[b].0
  {
    var d := Tally(ts);
    var f := MostCommonTokens(ts);
    SortDescSpec(d, Counts(d));
    var order := Rank(Counts(d));
    TallyCounts(ts, x);
    var i := IndexOf(d, x).value;
    assert i in order;
    var a :| 0 <= a < |order| && order[a] == i;
    assert f[a] == (x, Count(ts, x));
    forall a, b | 0 <= a < b < |f| ensures f[a].0 != f[b].0 {
      assert order[a] != order[b];
    }
  }

  /** The entries run from the highest count down. */
  lemma MostCommonSorted(ts: seq<string>)
    ensures var f := MostCommonTokens(ts);
      forall a, b :: 0 <= a < b < |f| ==> f[a].1 >= f[b].1
  {
    var d := Tally(ts);
    SortDescSpec(d, Counts(d));
  }

  /** Tokens with equal counts keep the order in which they first appeared. */
  lemma MostCommonTies(ts: seq<string>, a: nat, b: nat)
    requires a < b < |MostCommonTokens(ts)| && MostCommonTokens(ts)[a].1 == MostCommonTokens(ts)[b].1
    ensures var f := MostCommonTokens(ts);
      f[a].0 in ts && f[b].0 in ts && FirstIndex(ts, f[a].0) < FirstIndex(ts, f[b].0)
  {
    var d := Tally(ts);
    var f := MostCommonTokens(ts);
    SortDescSpec(d, Counts(d));
    var order := Rank(Counts(d));
    assert order[a] < order[b];
    TallyKeys(ts);
    DistinctOrder(ts);
    assert Keys(d)[order[a]] == f[a].0 && Keys(d)[order[b]] == f[b].0;
    assert f[a].0 in Distinct(ts) && f[b].0 in Distinct(ts);
  }

  /** The rows of `keyword_frequency.csv`. */
  function Frequencies(rows: seq<Row>): Dict<nat>
  {
    MostCommonTokens(AllTokens(rows))
  }

  /** Each frequency entry is a clean token of the data with its exact number of occurrences. */
  lemma FrequenciesEntries(rows: seq<Row>, a: nat)
    requires a < |Frequencies(rows)|
    ensures var ts, e := AllTokens(rows), Frequencies(rows)[a];
      e.0 in ts && e.1 == Count(ts, e.0) && CleanToken(e.0)
  {
    MostCommonEntries(AllTokens(rows), a);
    AllTokensClean(rows);
  }

  // -------------------------------------------------------------- suggestions

  /** `INDUSTRY_HINTS`: a hint word and the industry it suggests, in dictionary order. */
  const IndustryHints: Table := [
    ("it", "医療IT・医療データ"), ("システム", "医療IT・医療データ"), ("データ", "医療IT・医療データ"),
    ("機器", "医療機器メーカー"), ("検査", "医療機器メーカー"), ("画像", "医療機器メーカー"),
    ("製薬", "製薬・バイオ"), ("バイオ", "製薬・バイオ"), ("薬", "製薬・バイオ"),
    ("介護", "介護・福祉"), ("在宅", "介護・福祉"), ("福祉", "介護・福祉"),
    ("栄養", "ヘルスケア食品・栄養"), ("サプリ", "ヘルスケア食品・栄養"),
    ("出版", "医療メディア・出版"), ("教育", "教育・研修"), ("物流", "医療物流"), ("流通", "医療卸・流通"),
    ("フィットネス", "フィットネス・健康サービス")
  ]

  /** A suggestion: token, count, industry. */
  type Suggestion = (string, nat, string)

  /** For each (token, count) in order, the first hint word inside the token gives a suggestion; no hint, no suggestion. */
  function Suggestions(hints: Table, ranked: Dict<nat>): (r: seq<Suggestion>)
    ensures |r| <= |ranked|
  {
    if ranked == [] then []
    else
      var n := |ranked| - 1;
      Suggestions(hints, ranked[..n]) + match FirstMatch(hints, ranked[n].0)
        case Some(ind) => [(ranked[n].0, ranked[n].1, ind)]
        case None => []
  }

  /** Every suggestion comes from an entry of the list, with the industry of the first hint its token contains. */
  lemma {:induction false} SuggestionsFrom(hints: Table, ranked: Dict<nat>, s: Suggestion)
    requires s in Suggestions(hints, ranked)
    ensures exists a :: 0 <= a < |ranked| && ranked[a] == (s.0, s.1)
    ensures FirstMatch(hints, s.0) == Some(s.2)
  {
    var n := |ranked| - 1;
    if s in Suggestions(hints, ranked[..n]) {
      SuggestionsFrom(hints, ranked[..n], s);
      var a :| 0 <= a < n && ranked[..n][a] == (s.0, s.1);
      assert ranked[a] == (s.0, s.1);
    } else {
      assert ranked[n] == (s.0, s.1);
    }
  }

  /** Every entry whose token contains a hint word is suggested. */
  lemma {:induction false} SuggestionsComplete(hints: Table, ranked: Dict<nat>, a: nat)
    requires a < |ranked| && FirstMatch(hints, ranked[a].0).Some?
    ensures (ranked[a].0, ranked[a].1, FirstMatch(hints, ranked[a].0).value) in Suggestions(hints, ranked)
  {
    var n := |ranked| - 1;
    if a < n {
      assert ranked[..n][a] == ranked[a];
      SuggestionsComplete(hints, ranked[..n], a);
    }
  }

  /** Suggestions keep the list's order: counts that never increase stay that way. */
  lemma {:induction false} SuggestionsSorted(hints: Table, ranked: Dict<nat>)
    requires forall a, b :: 0 <= a < b < |ranked| ==> ranked[a].1 >= ranked[b].1
    ensures var r := Suggestions(hints, ranked);
      forall a, b :: 0 <= a < b < |r| ==> r[a].1 >= r[b].1
  {
    if ranked != [] {
      var n := |ranked| - 1;
      var prev := Suggestions(hints, ranked[..n]);
      SuggestionsSorted(hints, ranked[..n]);
      forall a | 0 <= a < |prev| ensures prev[a].1 >= ranked[n].1 {
        SuggestionsFrom(hints, ranked[..n], prev[a]);
      }
    }
  }

  /** Hints are tried in order, so a token containing "it" is always an IT token. */
  lemma HintIT(tok: string)
    requires Contains(tok, "it")
    ensures FirstMatch(IndustryHints, tok) == Some("医療IT・医療データ")
  {
  }

  /** The suggestion loop: for each entry, the first hint word in its token, if any, gives a line. */
  method SuggestAll(hints: Table, ranked: Dict<nat>) returns (sug: seq<Suggestion>)
    ensures sug == Suggestions(hints, ranked)
  {
    sug := [];
    for i := 0 to |ranked|
      invariant sug == Suggestions(hints, ranked[..i])
    {
      var found := FindFirst(hints, ranked[i].0);
      assert ranked[..i + 1][..i] == ranked[..i];
      if found.Some? {
        sug := sug + [(ranked[i].0, ranked[i].1, found.value)];
      }
    }
    assert ranked[..|ranked|] == ranked;
  }

  /** The whole script: the frequency list and the suggestion list. */
  method Analyze(rows: seq<Row>) returns (freq: Dict<nat>, sug: seq<Suggestion>)
    ensures freq == Frequencies(rows)
    ensures sug == Suggestions(IndustryHints, freq)
  {
    var counter := CountTokens(rows);
    freq := MostCommonAll(counter);
    sug := SuggestAll(IndustryHints, freq);
  }

  /** Every suggestion names a clean token of the data with its exact count, and they come most frequent first. */
  lemma AnalysisSuggestions(rows: seq<Row>)
    ensures var ts, r := AllTokens(rows), Suggestions(IndustryHints, Frequencies(rows));
      && (forall s :: s in r ==> s.0 in ts && s.1 == Count(ts, s.0) && CleanToken(s.0))
      && (forall a, b :: 0 <= a < b < |r| ==> r[a].1 >= r[b].1)
  {
    var f := Frequencies(rows);
    var r := Suggestions(IndustryHints, f);
    forall s | s in r ensures s.0 in AllTokens(rows) && s.1 == Count(AllTokens(rows), s.0) && CleanToken(s.0) {
      SuggestionsFrom(IndustryHints, f, s);
      var a :| 0 <= a < |f| && f[a] == (s.0, s.1);
      FrequenciesEntries(rows, a);
    }
    MostCommonSorted(AllTokens(rows));
    SuggestionsSorted(IndustryHints, f);
  }
}
