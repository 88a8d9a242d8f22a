/**
  `select_and_pitch.py`: pick candidates from the master list by three
  score thresholds, keep the 20 with the highest medical score, check each
  company's site for a careers page, order the companies with open
  positions first and write a three-line pitch for each of the final three.
*/
module Selection {
  import opened Base
  import opened Text
  import opened Rows
  import opened Ranking

  const MinMedicalScore := 60
  const MinHybridScore := 40
  const MaxRiskLevel := 70
  const TopCandidates: nat := 20
  const TopFinal: nat := 3

  /** The paths tried on a company's site after its root. */
  const CareerPaths: seq<string> := ["/careers", "/jobs", "/recruit", "/recruitment", "/採用", "/recruiters", "/career", "/jobs/positions"]

  // ------------------------------------------------------------ safe_int

  /**
    `safe_int(v)`: `int(float(v))`, and 0 where that raises. Integer text
    (with a sign) gives its value; an unsigned decimal is truncated.
  */
  function SafeInt(v: string): int
  {
    match ParseInt(v)
    case Some(n) => n
    case None =>
      match Hundredths(v)
      case Some(h) => h / 100
      case None => 0
  }

  /**
    Printed integers and printed decimals read back through `SafeInt`:
    an integer as itself, a number of hundredths as its whole part.
  */
  lemma SafeIntReadsBack(n: int, c: nat)
    ensures SafeInt(IntToString(n)) == n
    ensures SafeInt(HundredthsToString(c)) == c / 100
  {
    ParseIntToString(n);
    HundredthsText(c);
    var t := HundredthsToString(c);
    assert '.' in t by {
      var d1, d2 := (c % 100) / 10, c % 10;
      var frac := if d2 == 0 then [DigitChar(d1)] else [DigitChar(d1), DigitChar(d2)];
      assert t == NatToString(c / 100) + "." + frac;
      assert t[|NatToString(c / 100)|] == '.';
    }
    HundredthsNoSpace(c);
    var whole := NatToString(c / 100);
    assert t[0] == whole[0] && IsDigit(whole[0]);
    assert !IsDigits(t) by {
      assert t[|whole|] == '.' && !IsDigit('.');
    }
  }

  /** Text without a digit, such as the empty cell, is rejected by `int(float(v))` and gives 0. */
  lemma SafeIntDefault(v: string)
    requires forall i :: 0 <= i < |v| ==> !IsDigit(v[i])
    ensures SafeInt(v) == 0
  {
    ParseIntNoDigits(v);
    HundredthsNoDigits(v);
  }

  function MedicalScore(r: Row): int { SafeInt(Get(r, "medical_relevance_score")) }
  function HybridScore(r: Row): int { SafeInt(Get(r, "hybrid_fit_score")) }
  function RiskLevel(r: Row): int { SafeInt(Get(r, "risk_level")) }

  // ------------------------------------------------------------ candidates

  /** The filter of the candidate loop. */
  predicate IsCandidate(r: Row)
  {
    MedicalScore(r) >= MinMedicalScore && HybridScore(r) >= MinHybridScore && RiskLevel(r) <= MaxRiskLevel
  }

  /** Appending the row itself. */
  function Same(r: Row): Row { r }

  function Candidates(rows: seq<Row>): seq<Row>
  {
    FilterMap(rows, IsCandidate, Same)
  }

  function MedicalKeys(rows: seq<Row>): (ks: seq<int>)
    ensures |ks| == |rows| && forall i :: 0 <= i < |rows| ==> ks[i] == MedicalScore(rows[i])
  {
    seq(|rows|, i requires 0 <= i < |rows| => MedicalScore(rows[i]))
  }

  /** `sorted(candidates, key=medical score, reverse=True)[:20]`. */
  function TopOf(cands: seq<Row>): seq<Row>
  {
    Take(SortDesc(cands, MedicalKeys(cands)), TopCandidates)
  }

  /** The candidate loop and the top-20 cut. */
  method SelectCandidates(rows: seq<Row>) returns (top: seq<Row>)
    ensures top == TopOf(Candidates(rows))
  {
    var candidates := FilterMapRows(rows, IsCandidate, Same);
    top := TopOf(candidates);
  }

  /** The cut keeps no candidate more often than the candidate list holds it. */
  lemma TopOfMultiset(cands: seq<Row>)
    ensures multiset(TopOf(cands)) <= multiset(cands)
  {
    var keys := MedicalKeys(cands);
    var sorted := SortDesc(cands, keys);
    SortDescPermutation(cands, keys);
    assert sorted == TopOf(cands) + Drop(sorted, TopCandidates);
    assert multiset(sorted) == multiset(TopOf(cands)) + multiset(Drop(sorted, TopCandidates));
  }

  /**
    The top list holds the first `min(20, n)` candidates of the stable sort
    from the highest medical score down: each one an input row passing all
    three thresholds, equal scores in input order, no candidate more often
    than it was found, and every candidate left out scoring no higher than
    any row kept.
  */
  lemma TopCandidatesSpec(rows: seq<Row>)
    ensures var cands := Candidates(rows);
      var top := TopOf(cands);
      var order := Rank(MedicalKeys(cands));
      && |top| == Min(TopCandidates, |cands|)
      && (forall a :: 0 <= a < |top| ==> order[a] < |cands| && top[a] == cands[order[a]])
      && (forall a :: 0 <= a < |top| ==> IsCandidate(top[a]) && top[a] in rows)
      && (forall a, b :: 0 <= a < b < |top| ==> MedicalScore(top[a]) >= MedicalScore(top[b]))
      && (forall a, b :: 0 <= a < b < |top| && MedicalScore(top[a]) == MedicalScore(top[b]) ==> order[a] < order[b])
      && multiset(top) <= multiset(cands)
      && (forall i :: 0 <= i < |cands| && i !in order[..|top|] ==>
            forall a :: 0 <= a < |top| ==> MedicalScore(cands[i]) <= MedicalScore(top[a]))
  {
    var cands := Candidates(rows);
    var keys := MedicalKeys(cands);
    var top := TopOf(cands);
    SortDescSpec(cands, keys);
    TopOfMultiset(cands);
    forall a | 0 <= a < |top|
      ensures IsCandidate(top[a]) && top[a] in rows
    {
      var i := Rank(keys)[a];
      assert top[a] == cands[i];
      FilterMapFrom(rows, IsCandidate, Same, cands[i]);
    }
    forall i | 0 <= i < |cands| && i !in Rank(keys)[..|top|]
      ensures forall a :: 0 <= a < |top| ==> MedicalScore(cands[i]) <= MedicalScore(top[a])
    {
      TopIsHighest(keys, |top|, i);
    }
  }

  /** Every input row passing the thresholds is a candidate. */
  lemma CandidatesComplete(rows: seq<Row>, i: nat) returns (a: nat)
    requires i < |rows| && IsCandidate(rows[i])
    ensures a < |Candidates(rows)| && Candidates(rows)[a] == rows[i]
  {
    a := FilterMapHas(rows, IsCandidate, Same, i);
  }

  // ------------------------------------------------------------ base URL

  /** `r.get("company_website") or r.get("website") or r.get("url") or r.get("raw_medical_domains") or ""`. */
  function Site(r: Row): string
  {
    if Get(r, "company_website") != "" then Get(r, "company_website")
    else if Get(r, "website") != "" then Get(r, "website")
    else if Get(r, "url") != "" then Get(r, "url")
    else Get(r, "raw_medical_domains")
  }

  /** The site, cut to its first comma-separated piece, stripped, when it holds a comma. */
  function BaseUrl(r: Row): string
  {
    var base := Site(r);
    if base != "" && ',' in base then Strip(Split(base, ',')[0]) else base
  }

  /** The first piece of a split is the text before the first separator. */
  lemma {:induction false} SplitHead(s: string, sep: char, k: nat)
    requires k <= |s| && sep !in s[..k] && (k == |s| || s[k] == sep)
    ensures Split(s, sep)[0] == s[..k]
    decreases |s|
  {
    if s != [] && k > 0 {
      assert s[0] != sep by {
        assert s[..k][0] == s[0];
      }
      assert s[1..][..k - 1] == s[..k][1..];
      SplitHead(s[1..], sep, k - 1);
    }
  }

  /**
    The base URL holds no comma: it is the stripped text before the first
    comma of the first non-empty site column, or that column unchanged
    when it has none.
  */
  lemma BaseUrlSpec(r: Row)
    ensures ',' !in BaseUrl(r)
    ensures var base := Site(r);
      match FindChar(base, ',')
      case Some(k) => BaseUrl(r) == Strip(base[..k])
      case None => BaseUrl(r) == base
  {
    var base := Site(r);
    match FindChar(base, ',')
    case Some(k) =>
      SplitHead(base, ',', k);
      SplitPiecesFree(base, ',');
      StripChars(base[..k]);
    case None =>
  }

  // ------------------------------------------------------------ check_career_urls

  /** What a request gave: a status code, or a `RequestException`. */
  datatype Response = Status(code: int) | Failed

  /** A request function: the network is a parameter. */
  type Fetch = string -> Response

  predicate IsSlash(c: char) { c == '/' }

  /** The base as requested: "https://" is put in front of one that does not start with "http". */
  function Normalized(base: string): string
  {
    if "http" <= base then base else "https://" + LStrip(Strip(base), IsSlash)
  }

  /** The nine URLs tried: the root, then the root followed by each career path. */
  function CareerUrls(base: string): (urls: seq<string>)
  {
    var root := RStrip(Normalized(base), IsSlash);
    [root] + seq(|CareerPaths|, i requires 0 <= i < |CareerPaths| => root + CareerPaths[i])
  }

  /**
    There are nine URLs, the first the root without trailing slashes and
    each other one the root followed by a career path; the root keeps a
    base that starts with "http" and starts with "https://" otherwise.
  */
  lemma CareerUrlsSpec(base: string)
    ensures var urls := CareerUrls(base);
      var root := urls[0];
      && |urls| == 9
      && root == RStrip(Normalized(base), IsSlash)
      && (root == [] || root[|root| - 1] != '/')
      && (forall i :: 0 <= i < |CareerPaths| ==> urls[i + 1] == root + CareerPaths[i])
      && ("http" <= base ==> root <= base)
      && (!("http" <= base) ==> "https:" <= root)
  {
    var n := Normalized(base);
    RStripPrefix(n, IsSlash);
    var root := RStrip(n, IsSlash);
    if !("http" <= base) {
      assert n[..6] == "https:";
      assert !IsSlash(n[5]);
      assert |root| > 5;
      assert root[..6] == n[..6];
    }
  }

  /** A URL answers 200 to HEAD, or answers 405, 403 or 400 to HEAD and 200 to GET. */
  predicate Answers(url: string, head: Fetch, get: Fetch)
  {
    match head(url)
    case Failed => false
    case Status(c) => c == 200 || ((c == 405 || c == 403 || c == 400) && get(url) == Status(200))
  }

  /** The position of the first URL that answers. */
  function FirstAnswering(urls: seq<string>, head: Fetch, get: Fetch): (r: Option<nat>)
    ensures r.Some? ==> r.value < |urls| && Answers(urls[r.value], head, get)
    ensures r.Some? ==> forall j :: 0 <= j < r.value ==> !Answers(urls[j], head, get)
    ensures r.None? ==> forall j :: 0 <= j < |urls| ==> !Answers(urls[j], head, get)
  {
    if urls == [] then None
    else if Answers(urls[0], head, get) then Some(0)
    else match FirstAnswering(urls[1..], head, get)
      case Some(k) => Some(k + 1)
      case None => None
  }

  /** `check_career_urls(base)`: whether a careers page answers, and the first URL that does. */
  function JobCheck(base: string, head: Fetch, get: Fetch): (bool, string)
  {
    if base == "" then (false, "")
    else
      var urls := CareerUrls(base);
      match FirstAnswering(urls, head, get)
      case Some(k) => (true, urls[k])
      case None => (false, "")
  }

  /** A URL that answers after none before it has is the first answering one. */
  lemma {:induction false} FirstAnsweringAt(urls: seq<string>, head: Fetch, get: Fetch, i: nat)
    requires i < |urls| && Answers(urls[i], head, get)
    requires forall j :: 0 <= j < i ==> !Answers(urls[j], head, get)
    ensures FirstAnswering(urls, head, get) == Some(i)
  {
    if i > 0 {
      FirstAnsweringAt(urls[1..], head, get, i - 1);
    }
  }

  /** The request loop: HEAD each URL in turn, and GET it when HEAD is refused. */
  method TryUrls(urls: seq<string>, head: Fetch, get: Fetch) returns (found: Option<nat>)
    ensures found == FirstAnswering(urls, head, get)
  {
    var i := 0;
    while i < |urls|
      invariant 0 <= i <= |urls|
      invariant forall j :: 0 <= j < i ==> !Answers(urls[j], head, get)
    {
      var r := head(urls[i]);
      if r.Status? {
        if r.code == 200 {
          FirstAnsweringAt(urls, head, get, i);
          return Some(i);
        }
        if r.code == 405 || r.code == 403 || r.code == 400 {
          var r2 := get(urls[i]);
          if r2 == Status(200) {
            FirstAnsweringAt(urls, head, get, i);
            return Some(i);
          }
        }
      }
      i := i + 1;
    }
    return None;
  }

  /** `check_career_urls(base)`: no request for an empty base, else the first answering URL. */
  method CheckCareerUrls(base: string, head: Fetch, get: Fetch) returns (hasJobs: bool, url: string)
    ensures (hasJobs, url) == JobCheck(base, head, get)
    ensures base == "" ==> !hasJobs && url == ""
    ensures hasJobs ==> url in CareerUrls(base) && Answers(url, head, get)
    ensures !hasJobs ==> url == ""
  {
    if base == "" {
      return false, "";
    }
    var urls := CareerUrls(base);
    var found := TryUrls(urls, head, get);
    match found
    case Some(k) => hasJobs, url := true, urls[k];
    case None => hasJobs, url := false, "";
  }

  // ------------------------------------------------------------ enrichment

  /** A copy of the row with the job-check columns set. */
  function Enriched(r: Row, head: Fetch, get: Fetch): Row
  {
    var (hasJobs, url) := JobCheck(BaseUrl(r), head, get);
    r["has_open_jobs" := if hasJobs then "1" else "0"]["matched_jobs_url" := url]
  }

  /**
    An enriched row is the row with only the two job-check columns set:
    "1" with the first answering URL when the careers check succeeds, and
    "0" with an empty URL otherwise, always "0" for a row without a site.
  */
  lemma EnrichedSpec(r: Row, head: Fetch, get: Fetch)
    ensures var e := Enriched(r, head, get);
      && Keeps(r, e, {"has_open_jobs", "matched_jobs_url"})
      && e["has_open_jobs"] in {"1", "0"}
      && (e["has_open_jobs"] == "1" <==> JobCheck(BaseUrl(r), head, get).0)
      && (e["has_open_jobs"] == "1" ==> e["matched_jobs_url"] in CareerUrls(BaseUrl(r)))
      && (e["has_open_jobs"] == "0" ==> e["matched_jobs_url"] == "")
      && (BaseUrl(r) == "" ==> e["has_open_jobs"] == "0")
  {
  }

  /** One step of the enrichment loop: the check runs only for a non-empty base URL. */
  method EnrichRow(r: Row, head: Fetch, get: Fetch) returns (r2: Row)
    ensures r2 == Enriched(r, head, get)
  {
    var base := BaseUrl(r);
    var hasJobs, url := false, "";
    if base != "" {
      hasJobs, url := CheckCareerUrls(base, head, get);
    }
    r2 := r["has_open_jobs" := if hasJobs then "1" else "0"]["matched_jobs_url" := url];
  }

  /** The enrichment loop over the top candidates. */
  method EnrichCandidates(top: seq<Row>, head: Fetch, get: Fetch) returns (enriched: seq<Row>)
    ensures |enriched| == |top| && forall i :: 0 <= i < |top| ==> enriched[i] == Enriched(top[i], head, get)
  {
    enriched := [];
    for i := 0 to |top|
      invariant |enriched| == i && forall j :: 0 <= j < i ==> enriched[j] == Enriched(top[j], head, get)
    {
      var r2 := EnrichRow(top[i], head, get);
      enriched := enriched + [r2];
    }
  }

  // ------------------------------------------------------------ final ordering

  predicate HasJobs(r: Row) { Get(r, "has_open_jobs") == "1" }
  predicate NoJobs(r: Row) { Get(r, "has_open_jobs") != "1" }

  function SortedByMedical(rows: seq<Row>): seq<Row>
  {
    SortDesc(rows, MedicalKeys(rows))
  }

  /** Companies with open positions first, each group from the highest medical score down. */
  function Ordered(enriched: seq<Row>): seq<Row>
  {
    SortedByMedical(FilterMap(enriched, HasJobs, Same)) + SortedByMedical(FilterMap(enriched, NoJobs, Same))
  }

  function FinalThree(enriched: seq<Row>): seq<Row>
  {
    Take(Ordered(enriched), TopFinal)
  }

  /** Splitting rows by a test and by its negation loses and duplicates nothing. */
  lemma {:induction false} SplitByJobs(rows: seq<Row>)
    ensures multiset(FilterMap(rows, HasJobs, Same)) + multiset(FilterMap(rows, NoJobs, Same)) == multiset(rows)
  {
    if rows != [] {
      var n := |rows| - 1;
      SplitByJobs(rows[..n]);
      assert rows == rows[..n] + [rows[n]];
    }
  }

  /** Sorting keeps each row as often as before. */
  lemma SortedByMedicalSpec(rows: seq<Row>)
    ensures multiset(SortedByMedical(rows)) == multiset(rows)
    ensures forall a, b :: 0 <= a < b < |rows| ==> MedicalScore(SortedByMedical(rows)[a]) >= MedicalScore(SortedByMedical(rows)[b])
  {
    SortDescSpec(rows, MedicalKeys(rows));
    SortDescPermutation(rows, MedicalKeys(rows));
  }

  /** Every row of a sorted group passes the group's filter. */
  lemma {:induction false} GroupPasses(rows: seq<Row>, keep: Row -> bool, a: nat)
    requires a < |SortedByMedical(FilterMap(rows, keep, Same))|
    ensures keep(SortedByMedical(FilterMap(rows, keep, Same))[a])
  {
    var g := FilterMap(rows, keep, Same);
    SortDescSpec(g, MedicalKeys(g));
    FilterMapFrom(rows, keep, Same, g[Rank(MedicalKeys(g))[a]]);
  }

  /** The ordering holds each enriched row exactly as often as the enriched list does. */
  lemma OrderedPermutation(enriched: seq<Row>)
    ensures multiset(Ordered(enriched)) == multiset(enriched)
  {
    SplitByJobs(enriched);
    SortedByMedicalSpec(FilterMap(enriched, HasJobs, Same));
    SortedByMedicalSpec(FilterMap(enriched, NoJobs, Same));
  }

  /** Every row with open positions comes before every row without. */
  lemma OrderedJobsFirst(enriched: seq<Row>, a: nat, b: nat)
    requires a < b < |Ordered(enriched)| && HasJobs(Ordered(enriched)[b])
    ensures HasJobs(Ordered(enriched)[a])
  {
    var sw := SortedByMedical(FilterMap(enriched, HasJobs, Same));
    var o := Ordered(enriched);
    if b < |sw| {
      GroupPasses(enriched, HasJobs, a);
    } else {
      assert o[b] == SortedByMedical(FilterMap(enriched, NoJobs, Same))[b - |sw|];
      GroupPasses(enriched, NoJobs, b - |sw|);
      assert false;
    }
  }

  /** Within each group, medical scores never rise. */
  lemma OrderedSorted(enriched: seq<Row>, a: nat, b: nat)
    requires a < b < |Ordered(enriched)| && HasJobs(Ordered(enriched)[a]) == HasJobs(Ordered(enriched)[b])
    ensures MedicalScore(Ordered(enriched)[a]) >= MedicalScore(Ordered(enriched)[b])
  {
    var sw := SortedByMedical(FilterMap(enriched, HasJobs, Same));
    var swo := SortedByMedical(FilterMap(enriched, NoJobs, Same));
    var o := Ordered(enriched);
    if b < |sw| {
      SortedByMedicalSpec(FilterMap(enriched, HasJobs, Same));
      assert o[a] == sw[a] && o[b] == sw[b];
    } else if a >= |sw| {
      SortedByMedicalSpec(FilterMap(enriched, NoJobs, Same));
      assert o[a] == swo[a - |sw|] && o[b] == swo[b - |sw|];
    } else {
      assert o[a] == sw[a] && o[b] == swo[b - |sw|];
      GroupPasses(enriched, HasJobs, a);
      GroupPasses(enriched, NoJobs, b - |sw|);
      assert false;
    }
  }

  /** At most three companies are chosen, and some are whenever there were candidates. */
  lemma FinalThreeSize(enriched: seq<Row>)
    ensures |FinalThree(enriched)| == Min(TopFinal, |enriched|)
    ensures FinalThree(enriched) <= Ordered(enriched)
  {
    OrderedPermutation(enriched);
    assert |multiset(Ordered(enriched))| == |multiset(enriched)|;
  }

  // ------------------------------------------------------------ generate_pitch

  /** `row.get("industry", "") or "業界情報なし"`. */
  function IndustryOf(r: Row): string
  {
    GetOr(r, "industry", "業界情報なし")
  }

  const ItStrength := "強み: 医療×IT領域での成長性とデータ利活用の機会が豊富です。"
  const DeviceStrength := "強み: 製品開発・設計領域での専門性を活かせます。"
  const CareStrength := "強み: 実務経験を活かした現場寄りの役割が見込めます。"
  const PharmaStrength := "強み: 研究・臨床開発に関わる専門性が評価されます。"
  const GenericStrength := "強み: 医療領域での汎用的な経験が活かせます。"

  /** The strength line, by the first industry word found. */
  function StrengthLine(industry: string): string
  {
    if Contains(industry, "医療IT") then ItStrength
    else if Contains(industry, "医療機器") then DeviceStrength
    else if Contains(industry, "介護") then CareStrength
    else if Contains(industry, "製薬") || Contains(industry, "バイオ") then PharmaStrength
    else GenericStrength
  }

  /** The five strength lines, in the order the cascade tries them. */
  const Strengths: seq<string> := [ItStrength, DeviceStrength, CareStrength, PharmaStrength, GenericStrength]

  /** The five strength lines differ from each other. */
  lemma StrengthsDistinct()
    ensures |Strengths| == 5
    ensures forall i, j :: 0 <= i < j < |Strengths| ==> Strengths[i] != Strengths[j]
  {
    assert ItStrength[7] != DeviceStrength[7] && ItStrength[7] != CareStrength[7];
    assert ItStrength[7] != PharmaStrength[7] && ItStrength[7] != GenericStrength[7];
    assert DeviceStrength[4] != CareStrength[4] && DeviceStrength[4] != PharmaStrength[4];
    assert DeviceStrength[4] != GenericStrength[4];
    assert CareStrength[4] != PharmaStrength[4] && CareStrength[4] != GenericStrength[4];
    assert PharmaStrength[4] != GenericStrength[4];
  }

  /** Each strength line is chosen exactly when no earlier industry word occurs and its own does. */
  lemma StrengthLineSpec(industry: string)
    ensures StrengthLine(industry) == ItStrength <==> Contains(industry, "医療IT")
    ensures StrengthLine(industry) == DeviceStrength <==> !Contains(industry, "医療IT") && Contains(industry, "医療機器")
    ensures StrengthLine(industry) == CareStrength <==>
      !Contains(industry, "医療IT") && !Contains(industry, "医療機器") && Contains(industry, "介護")
    ensures StrengthLine(industry) == PharmaStrength <==>
      !Contains(industry, "医療IT") && !Contains(industry, "医療機器") && !Contains(industry, "介護")
      && (Contains(industry, "製薬") || Contains(industry, "バイオ"))
    ensures StrengthLine(industry) == GenericStrength <==>
      !Contains(industry, "医療IT") && !Contains(industry, "医療機器") && !Contains(industry, "介護")
      && !Contains(industry, "製薬") && !Contains(industry, "バイオ")
  {
    StrengthsDistinct();
    assert ItStrength == Strengths[0] && DeviceStrength == Strengths[1] && CareStrength == Strengths[2];
    assert PharmaStrength == Strengths[3] && GenericStrength == Strengths[4];
  }

  const ReasonHead := "理由: 医療関連性 "
  const ReasonHybrid := " / ハイブリッド適合 "
  const ReasonIndustry := "、業界: "
  const NextStep := "次の一手: 企業の採用ページを確認し、"
  const NextCheck := "募集ポジションが合致するかを確認してください"
  const NextRisk := "（リスク指標: "
  const NextHead := NextStep + NextCheck + NextRisk

  function ReasonLine(r: Row): string
  {
    ReasonHead + IntToString(MedicalScore(r)) + ReasonHybrid + IntToString(HybridScore(r))
      + ReasonIndustry + IndustryOf(r) + "。"
  }

  function NextAction(r: Row): string
  {
    NextHead + IntToString(RiskLevel(r)) + "）。"
  }

  /** The four lines of a pitch: the company, the reason, the strength and the next step. */
  function PitchLines(r: Row): seq<string>
  {
    [Strip(Get(r, "company_name")), ReasonLine(r), StrengthLine(IndustryOf(r)), NextAction(r)]
  }

  /** `generate_pitch(row)`. */
  function Pitch(r: Row): string
  {
    Join("\n", PitchLines(r))
  }

  /** The industry shown is the row's own, or "業界情報なし" exactly when that is missing or empty. */
  lemma IndustryOfSpec(r: Row)
    ensures IndustryOf(r) == "業界情報なし" || IndustryOf(r) == Get(r, "industry")
    ensures Get(r, "industry") == "" ==> IndustryOf(r) == "業界情報なし"
    ensures Get(r, "industry") != "" ==> IndustryOf(r) == Get(r, "industry")
  {
  }

  /** No line break inside a printed integer. */
  lemma IntNoBreak(n: int)
    ensures '\n' !in IntToString(n)
  {
    assert IsSpace('\n');
  }

  /** The fixed texts of a pitch hold no line break. */
  lemma FixedTextsNoBreak()
    ensures '\n' !in ReasonHead && '\n' !in ReasonHybrid && '\n' !in ReasonIndustry && '\n' !in NextHead
  {
    assert '\n' !in NextStep;
    assert '\n' !in NextCheck;
    assert '\n' !in NextRisk;
  }

  lemma ReasonNoBreak(r: Row)
    requires '\n' !in Get(r, "industry")
    ensures '\n' !in ReasonLine(r)
  {
    FixedTextsNoBreak();
    IntNoBreak(MedicalScore(r));
    IntNoBreak(HybridScore(r));
  }

  lemma NextActionNoBreak(r: Row)
    ensures '\n' !in NextAction(r)
  {
    FixedTextsNoBreak();
    IntNoBreak(RiskLevel(r));
  }

  lemma StrengthNoBreak(industry: string)
    ensures '\n' !in StrengthLine(industry)
  {
    assert forall i :: 0 <= i < |ItStrength| ==> ItStrength[i] != '\n';
    assert forall i :: 0 <= i < |DeviceStrength| ==> DeviceStrength[i] != '\n';
    assert forall i :: 0 <= i < |CareStrength| ==> CareStrength[i] != '\n';
    assert forall i :: 0 <= i < |PharmaStrength| ==> PharmaStrength[i] != '\n';
    assert forall i :: 0 <= i < |GenericStrength| ==> GenericStrength[i] != '\n';
  }

  /**
    A pitch reads back as its four lines when the name and the industry
    have no line break inside: the company name stripped, the reason, the
    strength line and the next step.
  */
  lemma PitchSpec(r: Row)
    requires '\n' !in Get(r, "company_name") && '\n' !in Get(r, "industry")
    ensures Split(Pitch(r), '\n') == PitchLines(r)
    ensures Split(Pitch(r), '\n')[0] == Strip(Get(r, "company_name"))
  {
    StripChars(Get(r, "company_name"));
    ReasonNoBreak(r);
    StrengthNoBreak(IndustryOf(r));
    NextActionNoBreak(r);
    JoinFour(PitchLines(r));
  }

  /** Four lines without breaks, joined by breaks, split back into the four lines. */
  lemma JoinFour(ls: seq<string>)
    requires |ls| == 4 && forall i :: 0 <= i < 4 ==> '\n' !in ls[i]
    ensures Split(Join("\n", ls), '\n') == ls
  {
    var nl := '\n';
    assert Join("\n", ls[3..]) == ls[3];
    assert Join("\n", ls[2..]) == ls[2] + [nl] + ls[3] by {
      assert ls[2..][1..] == ls[3..];
    }
    assert Join("\n", ls[1..]) == ls[1] + [nl] + (ls[2] + [nl] + ls[3]) by {
      assert ls[1..][1..] == ls[2..];
    }
    assert Join("\n", ls) == ls[0] + [nl] + (ls[1] + [nl] + (ls[2] + [nl] + ls[3]));
    SplitNoSeparator(ls[0], nl);
    SplitNoSeparator(ls[1], nl);
    SplitNoSeparator(ls[2], nl);
    SplitNoSeparator(ls[3], nl);
    SplitConcat(ls[2], ls[3], nl);
    SplitConcat(ls[1], ls[2] + [nl] + ls[3], nl);
    SplitConcat(ls[0], ls[1] + [nl] + (ls[2] + [nl] + ls[3]), nl);
    assert [ls[0]] + ([ls[1]] + ([ls[2]] + [ls[3]])) == ls;
  }

  // ------------------------------------------------------------ main

  /** What a run leaves: nothing when no row passes the thresholds, otherwise the four outputs. */
  datatype Outcome =
    | NoCandidates
    | Selected(top: seq<Row>, enriched: seq<Row>, final: seq<Row>, pitches: seq<string>)

  /** `main()` after the input file is read: the requests go through `head` and `get`. */
  method SelectAndPitch(rows: seq<Row>, head: Fetch, get: Fetch) returns (out: Outcome)
    ensures TopOf(Candidates(rows)) == [] <==> out == NoCandidates
    ensures out.Selected? ==>
      && out.top == TopOf(Candidates(rows))
      && |out.enriched| == |out.top|
      && (forall i :: 0 <= i < |out.top| ==> out.enriched[i] == Enriched(out.top[i], head, get))
      && out.final == FinalThree(out.enriched)
      && 1 <= |out.final| <= TopFinal
      && |out.pitches| == |out.final|
      && (forall i :: 0 <= i < |out.final| ==> out.pitches[i] == Pitch(out.final[i]))
  {
    var top := SelectCandidates(rows);
    if top == [] {
      return NoCandidates;
    }
    var enriched := EnrichCandidates(top, head, get);
    var final := FinalThree(enriched);
    FinalThreeSize(enriched);
    var pitches := MapRows(final, Pitch);
    out := Selected(top, enriched, final, pitches);
  }
}
