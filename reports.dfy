/**
  The report and export scripts over the master list: `summary_report.py`
  (industry counts, score distribution, top 100), `export_top100.py` (the
  top 100 projected onto seven columns) and `extract_others.py` (the
  companies still labelled "その他医療関連", projected onto six columns).
*/
module Reports {
  import opened Base
  import opened Text
  import opened Keywords
  import opened Dicts
  import opened Rows
  import opened Ranking
  import KeywordAnalysis
  import Scoring

  // ------------------------------------------------------------ reading

  /** The score of a row: `int(row.get("medical_relevance_score") or 0)`, 0 where `int` fails. */
  function ScoreOf(r: Row): int
  {
    IntOrZero(Get(r, Scoring.Score))
  }

  /**
    The read loop stores the parsed score back into the row; it is written
    out as the integer's text.
  */
  function Normalize(r: Row): (r': Row)
    ensures Keeps(r, r', {Scoring.Score})
    ensures r'[Scoring.Score] == IntToString(ScoreOf(r))
    ensures ScoreOf(r') == ScoreOf(r)
  {
    ParseIntToString(ScoreOf(r));
    r[Scoring.Score := IntToString(ScoreOf(r))]
  }

  /** Normalizing a row twice is normalizing it once. */
  lemma NormalizeIdempotent(r: Row)
    ensures Normalize(Normalize(r)) == Normalize(r)
  {
  }

  /** `rows` after the read loop. */
  function NormalizedRows(rows: seq<Row>): (out: seq<Row>)
    ensures |out| == |rows| && forall i :: 0 <= i < |rows| ==> out[i] == Normalize(rows[i])
  {
    seq(|rows|, i requires 0 <= i < |rows| => Normalize(rows[i]))
  }

  /** The read loop of both scripts. */
  method ReadRows(rows: seq<Row>) returns (out: seq<Row>)
    ensures out == NormalizedRows(rows)
  {
    out := MapRows(rows, Normalize);
  }

  // ------------------------------------------------------------ top 100

  /** The scores of the rows, as sort keys. */
  function ScoreKeys(rows: seq<Row>): (ks: seq<int>)
    ensures |ks| == |rows| && forall i :: 0 <= i < |rows| ==> ks[i] == ScoreOf(rows[i])
  {
    seq(|rows|, i requires 0 <= i < |rows| => ScoreOf(rows[i]))
  }

  /** `sorted(rows, key=score, reverse=True)[:100]`. */
  function TopByScore(rows: seq<Row>): seq<Row>
  {
    Take(SortDesc(rows, ScoreKeys(rows)), 100)
  }

  /**
    The top list holds the first `min(100, n)` rows of the stable sort from
    the highest score down: scores never rise along it, equal scores keep
    input order, every row left out scores no higher than any row kept, and
    no row appears more often than in the input.
  */
  lemma TopByScoreSpec(rows: seq<Row>)
    ensures var top := TopByScore(rows);
      var order := Rank(ScoreKeys(rows));
      && |top| == Min(100, |rows|)
      && (forall a :: 0 <= a < |top| ==> order[a] < |rows| && top[a] == rows[order[a]])
      && (forall a, b :: 0 <= a < b < |top| ==> ScoreOf(top[a]) >= ScoreOf(top[b]))
      && (forall a, b :: 0 <= a < b < |top| && ScoreOf(top[a]) == ScoreOf(top[b]) ==> order[a] < order[b])
      && (forall i :: 0 <= i < |rows| && i !in order[..|top|] ==> forall a :: 0 <= a < |top| ==> ScoreOf(rows[i]) <= ScoreOf(top[a]))
      && multiset(top) <= multiset(rows)
  {
    var keys := ScoreKeys(rows);
    var sorted := SortDesc(rows, keys);
    var top := TopByScore(rows);
    SortDescSpec(rows, keys);
    SortDescPermutation(rows, keys);
    assert sorted == top + Drop(sorted, 100);
    assert multiset(sorted) == multiset(top) + multiset(Drop(sorted, 100));
    forall i | 0 <= i < |rows| && i !in Rank(keys)[..|top|]
      ensures forall a :: 0 <= a < |top| ==> ScoreOf(rows[i]) <= ScoreOf(top[a])
    {
      TopIsHighest(keys, |top|, i);
    }
  }

  // ----------------------------------------------------- summary_report.py

  /** `r.get("industry") or "その他"`. */
  function IndustryLabel(r: Row): string
  {
    GetOr(r, "industry", "その他")
  }

  function IndustryLabels(rows: seq<Row>): (ls: seq<string>)
    ensures |ls| == |rows| && forall i :: 0 <= i < |rows| ==> ls[i] == IndustryLabel(rows[i])
  {
    seq(|rows|, i requires 0 <= i < |rows| => IndustryLabel(rows[i]))
  }

  /** `cnt = Counter([...])`. */
  function IndustryCounts(rows: seq<Row>): Dict<nat>
  {
    KeywordAnalysis.Tally(IndustryLabels(rows))
  }

  /**
    Every label is counted as often as it occurs, a missing or empty
    industry counting as "その他", so the empty label never appears and
    the counts add up to the number of rows.
  */
  lemma IndustryCountsSpec(rows: seq<Row>, x: string)
    ensures var ls := IndustryLabels(rows);
      && Lookup(IndustryCounts(rows), x) == (if x in ls then Some(Count(ls, x)) else None)
      && Lookup(IndustryCounts(rows), "").None?
      && Total(IndustryCounts(rows)) == |rows|
  {
    var ls := IndustryLabels(rows);
    KeywordAnalysis.TallyCounts(ls, x);
    KeywordAnalysis.TallyCounts(ls, "");
    KeywordAnalysis.TallyTotal(ls);
  }

  /** `cnt.most_common()`: the lines of the industry section, from the largest count down. */
  function IndustryRanking(rows: seq<Row>): Dict<nat>
  {
    KeywordAnalysis.MostCommonTokens(IndustryLabels(rows))
  }

  /** The industry section lists each label once with its count, counts not rising. */
  lemma IndustryRankingSpec(rows: seq<Row>, a: nat)
    requires a < |IndustryRanking(rows)|
    ensures var f := IndustryRanking(rows);
      var ls := IndustryLabels(rows);
      && f[a].0 in ls && f[a].1 == Count(ls, f[a].0)
      && (forall b :: a < b < |f| ==> f[a].1 >= f[b].1 && f[a].0 != f[b].0)
  {
    var ls := IndustryLabels(rows);
    KeywordAnalysis.MostCommonEntries(ls, a);
    KeywordAnalysis.MostCommonSorted(ls);
    KeywordAnalysis.MostCommonComplete(ls, IndustryRanking(rows)[a].0);
  }

  /** The score-distribution bucket of a score. */
  function Bucket(s: int): string
  {
    if s >= 80 then "80+"
    else if s >= 50 then "50-79"
    else if s >= 20 then "20-49"
    else "0-19"
  }

  /** The four buckets are the score ranges 80 and up, 50–79, 20–49 and below 20. */
  lemma BucketSpec(s: int)
    ensures Bucket(s) == "80+" <==> s >= 80
    ensures Bucket(s) == "50-79" <==> 50 <= s < 80
    ensures Bucket(s) == "20-49" <==> 20 <= s < 50
    ensures Bucket(s) == "0-19" <==> s < 20
  {
  }

  function BucketLabels(rows: seq<Row>): (ls: seq<string>)
    ensures |ls| == |rows| && forall i :: 0 <= i < |rows| ==> ls[i] == Bucket(ScoreOf(rows[i]))
  {
    seq(|rows|, i requires 0 <= i < |rows| => Bucket(ScoreOf(rows[i])))
  }

  /** `buckets` after the loop. */
  function Buckets(rows: seq<Row>): Dict<nat>
  {
    KeywordAnalysis.Tally(BucketLabels(rows))
  }

  /** The loop `buckets[...] += 1` over the rows, one bucket label per row. */
  method CountBuckets(rows: seq<Row>) returns (buckets: Dict<nat>)
    ensures buckets == Buckets(rows)
  {
    buckets := KeywordAnalysis.CountCell([], BucketLabels(rows));
  }

  /** Each label is one of the four buckets. */
  predicate FourBuckets(ls: seq<string>)
  {
    forall i :: 0 <= i < |ls| ==> ls[i] in ["80+", "50-79", "20-49", "0-19"]
  }

  /** Labels drawn from the four buckets are counted once each across them. */
  lemma {:induction false} CountFour(ls: seq<string>)
    requires FourBuckets(ls)
    ensures Count(ls, "80+") + Count(ls, "50-79") + Count(ls, "20-49") + Count(ls, "0-19") == |ls|
  {
    if ls != [] {
      CountFour(ls[..|ls| - 1]);
    }
  }

  /**
    The buckets partition the rows: a bucket counts exactly the rows whose
    score falls in its range, only the four buckets occur, and their counts
    add up to the number of rows.
  */
  lemma BucketsPartition(rows: seq<Row>, b: string)
    ensures var ls := BucketLabels(rows);
      && Lookup(Buckets(rows), b) == (if b in ls then Some(Count(ls, b)) else None)
      && (b !in ["80+", "50-79", "20-49", "0-19"] ==> Lookup(Buckets(rows), b).None?)
      && Count(ls, "80+") + Count(ls, "50-79") + Count(ls, "20-49") + Count(ls, "0-19") == |rows|
      && Total(Buckets(rows)) == |rows|
  {
    var ls := BucketLabels(rows);
    KeywordAnalysis.TallyCounts(ls, b);
    KeywordAnalysis.TallyTotal(ls);
    CountFour(ls);
  }

  /** What `summary_report.py` computes: the read rows, both counters, the industry ranking and the top 100. */
  datatype Summary = Summary(counts: Dict<nat>, ranking: Dict<nat>, buckets: Dict<nat>, top: seq<Row>)

  /** `summary_report.py`: read, count industries, fill the buckets, take the top 100. */
  method SummaryReport(input: seq<Row>) returns (s: Summary)
    ensures var rows := NormalizedRows(input);
      s == Summary(IndustryCounts(rows), IndustryRanking(rows), Buckets(rows), TopByScore(rows))
  {
    var rows := ReadRows(input);
    var buckets := CountBuckets(rows);
    s := Summary(IndustryCounts(rows), IndustryRanking(rows), buckets, TopByScore(rows));
  }

  // ------------------------------------------------------- projections

  /** `{k: r.get(k, "") for k in cols}`. */
  function Project(r: Row, cols: seq<string>): (p: Row)
    ensures forall k :: k in p <==> k in cols
    ensures forall k :: k in p ==> p[k] == Get(r, k)
  {
    if cols == [] then map[]
    else Project(r, cols[..|cols| - 1])[cols[|cols| - 1] := Get(r, cols[|cols| - 1])]
  }

  // ------------------------------------------------------ export_top100.py

  /** The seven columns of `top100_by_score.csv`. */
  const ExportColumns: seq<string> := ["company_id", "company_name", "medical_relevance_score", "industry",
                                       "short_description", "raw_medical_keywords", "raw_medical_domains"]

  /** One exported line. */
  function ExportLine(r: Row): Row
  {
    Project(r, ExportColumns)
  }

  /** `export_top100.py`: read, sort, and write the first 100 rows projected on the seven columns. */
  method ExportTop100(input: seq<Row>) returns (out: seq<Row>)
    ensures var top := TopByScore(NormalizedRows(input));
      |out| == |top| && forall a :: 0 <= a < |top| ==> out[a] == ExportLine(top[a])
  {
    var rows := ReadRows(input);
    out := MapRows(TopByScore(rows), ExportLine);
  }

  /**
    An exported line has exactly the seven columns, copied from the row or
    empty when missing, with the score written as the parsed integer.
  */
  lemma ExportLineSpec(r: Row)
    ensures var line := ExportLine(Normalize(r));
      && line.Keys == set k | k in ExportColumns
      && (forall k :: k in line && k != Scoring.Score ==> line[k] == Get(r, k))
      && line[Scoring.Score] == IntToString(ScoreOf(r))
  {
    assert Scoring.Score == ExportColumns[2];
  }

  // ------------------------------------------------------ extract_others.py

  /** The six columns of `others_companies.csv`. */
  const OthersColumns: seq<string> := ["company_id", "company_name", "medical_relevance_score",
                                       "short_description", "raw_medical_keywords", "raw_medical_domains"]

  /** A row still labelled "その他医療関連" once stripped. */
  predicate IsOtherRow(r: Row)
  {
    Strip(Get(r, "industry")) == Other
  }

  /** One line of the others file. */
  function OthersLine(r: Row): Row
  {
    Project(r, OthersColumns)
  }

  /** `extract_others.py`: the loop writing the projected "その他医療関連" rows. */
  method ExtractOthers(rows: seq<Row>) returns (out: seq<Row>)
    ensures out == FilterMap(rows, IsOtherRow, OthersLine)
  {
    out := FilterMapRows(rows, IsOtherRow, OthersLine);
  }

  /**
    The others file lists, in input order, one line per row whose stripped
    industry is "その他医療関連", holding exactly the six columns copied
    unchanged (empty when missing).
  */
  lemma ExtractOthersSpec(rows: seq<Row>, a: nat, b: nat) returns (i: nat, j: nat)
    requires a <= b < |FilterMap(rows, IsOtherRow, OthersLine)|
    ensures var out := FilterMap(rows, IsOtherRow, OthersLine);
      && i <= j < |rows| && (a < b ==> i < j)
      && IsOtherRow(rows[i]) && IsOtherRow(rows[j])
      && out[a].Keys == set k | k in OthersColumns
      && (forall k :: k in out[a] ==> out[a][k] == Get(rows[i], k))
      && out[b] == OthersLine(rows[j])
  {
    i, j := FilterMapOrder(rows, IsOtherRow, OthersLine, a, b);
  }

  /** Every row whose stripped industry is "その他医療関連" is written to the others file. */
  lemma ExtractOthersComplete(rows: seq<Row>, i: nat) returns (a: nat)
    requires i < |rows| && IsOtherRow(rows[i])
    ensures a < |FilterMap(rows, IsOtherRow, OthersLine)|
    ensures FilterMap(rows, IsOtherRow, OthersLine)[a] == OthersLine(rows[i])
  {
    a := FilterMapHas(rows, IsOtherRow, OthersLine, i);
  }
}
