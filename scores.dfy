/**
  Fit and risk scores derived from a company's medical relevance score `ms`
  and its industry label. Every table is a chain of inclusive lower edges
  checked from the highest down; the risk level starts from an industry base,
  moves by 10 for very high or very low relevance, and is clamped to
  [10, 90].
*/
module Scoring {
  import opened Base
  import opened Text
  import opened Keywords

  /** The column holding the relevance score `ms`. */
  const Score := "medical_relevance_score"

  /** The five derived scores: side job, career shift, hybrid, learning growth, risk. */
  datatype Scores = Scores(s: int, c: int, h: int, lg: int, rl: int)

  /** `int((s + c) / 2)` and `(s + c) // 2` agree for the non-negative sums that occur. */
  function Half(sum: int): (h: int)
    requires sum >= 0
    ensures 2 * h <= sum < 2 * h + 2
  {
    sum / 2
  }

  /** `max(10, min(90, base))`. */
  function Clamp(base: int): (r: int)
    ensures 10 <= r <= 90
    ensures 10 <= base <= 90 ==> r == base
  {
    Max(10, Min(90, base))
  }

  /** `-10` when `ms >= 80`, `+10` when `ms <= 10`, otherwise unchanged. */
  function Adjust(base: int, ms: int): (r: int)
    ensures ms >= 80 ==> r == base - 10
    ensures ms <= 10 ==> r == base + 10
    ensures 10 < ms < 80 ==> r == base
  {
    var b := if ms >= 80 then base - 10 else base;
    if ms <= 10 then b + 10 else b
  }

  // ------------------------------------------------------ compute_scores.py

  function SideJobFit(ms: int): int
  {
    if ms >= 90 then 90 else if ms >= 70 then 75 else if ms >= 40 then 60 else if ms >= 10 then 40 else 20
  }

  function CareerShiftFit(ms: int): int
  {
    if ms >= 90 then 30 else if ms >= 70 then 40 else if ms >= 40 then 60 else if ms >= 10 then 75 else 85
  }

  function LearningGrowth(ms: int): int
  {
    if ms >= 80 then 80 else if ms >= 50 then 65 else if ms >= 20 then 50 else 30
  }

  /** The two fit scores move in opposite directions as relevance grows. */
  lemma FitMonotone(ms1: int, ms2: int)
    requires ms1 <= ms2
    ensures SideJobFit(ms1) <= SideJobFit(ms2)
    ensures CareerShiftFit(ms1) >= CareerShiftFit(ms2)
    ensures LearningGrowth(ms1) <= LearningGrowth(ms2)
  {
  }

  /** The values of the fit tables, bucket by bucket, each edge belonging to the higher bucket. */
  lemma FitBuckets(ms: int)
    ensures ms >= 90 ==> SideJobFit(ms) == 90 && CareerShiftFit(ms) == 30
    ensures 70 <= ms < 90 ==> SideJobFit(ms) == 75 && CareerShiftFit(ms) == 40
    ensures 40 <= ms < 70 ==> SideJobFit(ms) == 60 && CareerShiftFit(ms) == 60
    ensures 10 <= ms < 40 ==> SideJobFit(ms) == 40 && CareerShiftFit(ms) == 75
    ensures ms < 10 ==> SideJobFit(ms) == 20 && CareerShiftFit(ms) == 85
    ensures Half(SideJobFit(ms) + CareerShiftFit(ms)) in {52, 57, 60}
  {
  }

  /** The industry base of `risk_level`: an `elif` chain, so 医療機器 outranks 製薬/バイオ, which outranks 医療IT. */
  function RiskBase(industry: string): (base: int)
    ensures base in {30, 40, 45, 50}
  {
    if Contains(industry, "医療機器") then 40
    else if Contains(industry, "製薬") || Contains(industry, "バイオ") then 50
    else if Contains(industry, "医療IT") then 30
    else 45
  }

  /** `risk_level(ms, industry)`: always within [20, 60], so the clamp to [10, 90] never changes it. */
  function RiskLevel(ms: int, industry: string): (r: int)
    ensures 10 <= r <= 90
    ensures 20 <= r <= 60 && r == Adjust(RiskBase(industry), ms)
  {
    Clamp(Adjust(RiskBase(industry), ms))
  }

  const DefaultBackground := "医療関連経験者;業界未経験者歓迎"

  /** The `target_background` cascade shared by all scripts that set it. */
  const BackgroundRules: Rules := [
    (["医療IT"], "ITエンジニア;医療現場経験者;データサイエンティスト"),
    (["医療機器"], "機械設計;臨床経験者;品質管理"),
    (["製薬", "バイオ"], "研究職;臨床開発;薬剤師"),
    (["介護"], "介護職;看護師;福祉系経験者")
  ]

  /** `target_background_suggestion`: the first rule whose word occurs in the industry, else the default. */
  function TargetBackground(industry: string): string
  {
    match Cascade(BackgroundRules, industry)
    case Some(b) => b
    case None => DefaultBackground
  }

  /** An empty industry matches no rule and gets the default background. */
  lemma EmptyIndustryBackground()
    ensures TargetBackground("") == DefaultBackground
  {
    CascadeSpec(BackgroundRules, "");
    forall i | 0 <= i < |BackgroundRules| ensures !Fires(BackgroundRules[i].0, "") {
      forall k | k in BackgroundRules[i].0 ensures !Contains("", k) {
        assert |k| > 0;
        if Contains("", k) { ContainsBound("", k); }
      }
    }
  }

  /** `compute_scores.py` per row: the five scores from one relevance value. */
  function ComputeScores(ms: int, industry: string): (r: Scores)
    ensures r.s == SideJobFit(ms) && r.c == CareerShiftFit(ms) && r.lg == LearningGrowth(ms)
    ensures r.h == Half(r.s + r.c) && r.rl == RiskLevel(ms, industry)
  {
    var s := SideJobFit(ms);
    var c := CareerShiftFit(ms);
    Scores(s, c, Half(s + c), LearningGrowth(ms), RiskLevel(ms, industry))
  }

  // ----------------------- recompute_scores and the pipelines' `recompute`

  /** The five-bucket table with inclusive edges 85/65/40/15, giving (s, c, lg). */
  function Bucket(ms: int): (int, int, int)
  {
    if ms >= 85 then (90, 30, 80)
    else if ms >= 65 then (75, 40, 65)
    else if ms >= 40 then (60, 60, 50)
    else if ms >= 15 then (45, 75, 40)
    else (25, 85, 30)
  }

  /**
    The risk base of `recompute_scores`: three independent `if`s, so the last
    match wins and 医療IT outranks 製薬/バイオ, which outranks 医療機器.
  */
  function RiskBaseSeq(industry: string): (base: int)
  {
    var b0 := 45;
    var b1 := if Contains(industry, "医療機器") then 40 else b0;
    var b2 := if Contains(industry, "製薬") || Contains(industry, "バイオ") then 50 else b1;
    if Contains(industry, "医療IT") then 30 else b2
  }

  /** The sequential `if`s read as an `elif` chain in the reverse order. */
  lemma RiskBaseSeqPriority(industry: string)
    ensures Contains(industry, "医療IT") ==> RiskBaseSeq(industry) == 30
    ensures (!Contains(industry, "医療IT") && (Contains(industry, "製薬") || Contains(industry, "バイオ")))
      ==> RiskBaseSeq(industry) == 50
    ensures (!Contains(industry, "医療IT") && !Contains(industry, "製薬") && !Contains(industry, "バイオ"))
      ==> RiskBaseSeq(industry) == (if Contains(industry, "医療機器") then 40 else 45)
  {
  }

  /** The two risk rules disagree on an industry naming both 医療機器 and 医療IT. */
  lemma RiskBasesDiffer()
    ensures RiskBase("医療機器・医療IT") == 40
    ensures RiskBaseSeq("医療機器・医療IT") == 30
  {
    assert "医療機器・医療IT"[..4] == "医療機器";
    assert "医療機器・医療IT"[5..][..4] == "医療IT";
    assert Contains("医療機器・医療IT"[5..], "医療IT");
    assert Contains("医療機器・医療IT"[1..][4..], "医療IT");
  }

  /** `recompute_scores(ms, industry)` (and each pipeline's `recompute` once `ms` is an integer). */
  function Recompute(ms: int, industry: string): (r: Scores)
    ensures (r.s, r.c, r.lg) == Bucket(ms)
    ensures r.h == Half(r.s + r.c) && r.h in {55, 57, 60}
    ensures r.rl == Clamp(Adjust(RiskBaseSeq(industry), ms))
    ensures 20 <= r.rl <= 60
  {
    var (s, c, lg) := Bucket(ms);
    Scores(s, c, Half(s + c), lg, Clamp(Adjust(RiskBaseSeq(industry), ms)))
  }

  /** Boundary values fall in the higher bucket; 80 already lowers the risk. */
  lemma RecomputeEdges(industry: string)
    ensures Recompute(85, industry).s == 90 && Recompute(85, industry).c == 30
    ensures Recompute(84, industry).s == 75
    ensures Recompute(15, industry).s == 45 && Recompute(14, industry).s == 25
    ensures Recompute(80, industry).rl == RiskBaseSeq(industry) - 10
    ensures Recompute(10, industry).rl == RiskBaseSeq(industry) + 10
  {
  }

  // ----------------------------------------------------------- rescale_scores.py

  /** The learning-growth table of the rescaling script: its third bucket is 45, not 50. */
  function RescaleLearningGrowth(ms: int): int
  {
    if ms >= 80 then 80 else if ms >= 50 then 65 else if ms >= 20 then 45 else 30
  }

  /** The rescaling script's risk base: 30 for 医療it as well as 医療IT. */
  function RescaleRiskBase(industry: string): int
  {
    var b0 := 45;
    var b1 := if Contains(industry, "医療機器") then 40 else b0;
    var b2 := if Contains(industry, "製薬") || Contains(industry, "バイオ") then 50 else b1;
    if Contains(industry, "医療it") || Contains(industry, "医療IT") then 30 else b2
  }

  /** The scores the rescaling loop writes for an already scaled relevance `scaled`. */
  function Rescale(scaled: int, industry: string): (r: Scores)
    ensures (r.s, r.c) == (Bucket(scaled).0, Bucket(scaled).1)
    ensures r.lg == RescaleLearningGrowth(scaled)
    ensures 20 <= r.rl <= 60
  {
    var (s, c, _) := Bucket(scaled);
    Scores(s, c, Half(s + c), RescaleLearningGrowth(scaled), Clamp(Adjust(RescaleRiskBase(industry), scaled)))
  }

  /**
    Rescaling agrees with `Recompute` on s, c, h and, unless the industry
    names 医療it, on the risk; its learning-growth table is that of
    `compute_scores.py` except 45 instead of 50 on [20, 50).
  */
  lemma RescaleVersusRecompute(scaled: int, industry: string)
    requires !Contains(industry, "医療it")
    ensures Rescale(scaled, industry).rl == Recompute(scaled, industry).rl
    ensures Rescale(scaled, industry).h == Recompute(scaled, industry).h
    ensures Rescale(scaled, industry).s == Recompute(scaled, industry).s
    ensures Rescale(scaled, industry).c == Recompute(scaled, industry).c
    ensures !(20 <= scaled < 50) ==> Rescale(scaled, industry).lg == LearningGrowth(scaled)
    ensures 20 <= scaled < 50 ==> Rescale(scaled, industry).lg == 45 && LearningGrowth(scaled) == 50
  {
  }

  // ------------------------------------------------------------- fill_scores.py

  function FillSideJobFit(ms: int): int
  {
    if ms >= 80 then 80 else if ms >= 40 then 60 else if ms >= 10 then 40 else 20
  }

  function FillCareerShiftFit(ms: int): int
  {
    if ms >= 80 then 30 else if ms >= 40 then 50 else if ms >= 10 then 70 else 80
  }

  /** The two tables of the fill script move in opposite directions and always average to 50 or 55. */
  lemma FillProperties(ms1: int, ms2: int)
    requires ms1 <= ms2
    ensures FillSideJobFit(ms1) <= FillSideJobFit(ms2)
    ensures FillCareerShiftFit(ms1) >= FillCareerShiftFit(ms2)
    ensures Half(FillSideJobFit(ms1) + FillCareerShiftFit(ms1)) in {50, 55}
  {
  }

  // ------------------------------------------------------ writing the scores

  /** The six columns the scoring scripts write, in the order they add them to the header. */
  const ScoreHeader := ["side_job_fit_score", "career_shift_fit_score", "hybrid_fit_score", "learning_growth_score",
                        "risk_level", "target_background"]

  const ScoreColumns := {"side_job_fit_score", "career_shift_fit_score", "hybrid_fit_score", "learning_growth_score",
                         "risk_level", "target_background"}

  /** The six cells of the scores and the background, in header order. */
  function ScoreCells(sc: Scores, background: string): (cells: seq<(string, string)>)
    ensures |cells| == 6 && forall i :: 0 <= i < 6 ==> cells[i].0 == ScoreHeader[i]
  {
    [("side_job_fit_score", IntToString(sc.s)), ("career_shift_fit_score", IntToString(sc.c)),
     ("hybrid_fit_score", IntToString(sc.h)), ("learning_growth_score", IntToString(sc.lg)),
     ("risk_level", IntToString(sc.rl)), ("target_background", background)]
  }

  /** The six score columns are distinct. */
  lemma ScoreHeaderDistinct()
    ensures forall i, j :: 0 <= i < j < |ScoreHeader| ==> ScoreHeader[i] != ScoreHeader[j]
  {
    assert |ScoreHeader[0]| == 18 && |ScoreHeader[1]| == 22 && |ScoreHeader[2]| == 16;
    assert |ScoreHeader[3]| == 21 && |ScoreHeader[4]| == 10 && |ScoreHeader[5]| == 17;
  }

  /** The score cells write each score column once. */
  lemma ScoreCellsColumns(sc: Scores, background: string)
    ensures DistinctColumns(ScoreCells(sc, background)) && Columns(ScoreCells(sc, background)) == ScoreColumns
  {
    ScoreHeaderDistinct();
    var cells := ScoreCells(sc, background);
    assert cells[0].0 in Columns(cells) && cells[1].0 in Columns(cells) && cells[2].0 in Columns(cells);
    assert cells[3].0 in Columns(cells) && cells[4].0 in Columns(cells) && cells[5].0 in Columns(cells);
  }

  /** The five computed scores and the target background written into a row. */
  function WithScores(r: Row, sc: Scores, background: string): (r': Row)
    ensures Keeps(r, r', ScoreColumns)
    ensures "side_job_fit_score" in r' && r'["side_job_fit_score"] == IntToString(sc.s)
    ensures "career_shift_fit_score" in r' && r'["career_shift_fit_score"] == IntToString(sc.c)
    ensures "hybrid_fit_score" in r' && r'["hybrid_fit_score"] == IntToString(sc.h)
    ensures "learning_growth_score" in r' && r'["learning_growth_score"] == IntToString(sc.lg)
    ensures "risk_level" in r' && r'["risk_level"] == IntToString(sc.rl)
    ensures "target_background" in r' && r'["target_background"] == background
    ensures Get(r', "short_description") == Get(r, "short_description")
  {
    var cells := ScoreCells(sc, background);
    ScoreColumnsExclude();
    ScoreCellsColumns(sc, background);
    WriteKeeps(r, cells);
    WriteAt(r, cells, 0);
    WriteAt(r, cells, 1);
    WriteAt(r, cells, 2);
    WriteAt(r, cells, 3);
    WriteAt(r, cells, 4);
    WriteAt(r, cells, 5);
    Write(r, cells)
  }

  /** The scores written into a row read back as the numbers computed. */
  lemma ScoresReadBack(r: Row, sc: Scores, background: string)
    ensures var r' := WithScores(r, sc, background);
      && ParseInt(r'["side_job_fit_score"]) == Some(sc.s)
      && ParseInt(r'["career_shift_fit_score"]) == Some(sc.c)
      && ParseInt(r'["hybrid_fit_score"]) == Some(sc.h)
      && ParseInt(r'["learning_growth_score"]) == Some(sc.lg)
      && ParseInt(r'["risk_level"]) == Some(sc.rl)
  {
    ParseIntToString(sc.s);
    ParseIntToString(sc.c);
    ParseIntToString(sc.h);
    ParseIntToString(sc.lg);
    ParseIntToString(sc.rl);
  }

  /** Writing the same scores twice is writing them once. */
  lemma WithScoresTwice(r: Row, sc: Scores, background: string)
    ensures WithScores(WithScores(r, sc, background), sc, background) == WithScores(r, sc, background)
  {
    ScoreCellsColumns(sc, background);
    WriteTwice(r, ScoreCells(sc, background));
  }

  /** The score, industry and description columns are none of the six score columns. */
  lemma ScoreColumnsExclude()
    ensures Score !in ScoreColumns && "industry" !in ScoreColumns && "short_description" !in ScoreColumns
  {
    assert |Score| == 23 && |"industry"| == 8 && |"short_description"| == 17;
    assert "target_background"[0] != "short_description"[0];
  }

  /** The seven columns of the finalising scripts: the six score columns and the description. */
  const FinalColumns := ScoreColumns + {"short_description"}

  /** A description and the six score cells written into a row. */
  function WithDescribedScores(r: Row, d: string, sc: Scores, background: string): (r': Row)
    ensures Keeps(r, r', FinalColumns)
    ensures r'["short_description"] == d
    ensures r' == WithScores(r["short_description" := d], sc, background)
  {
    ScoreColumnsExclude();
    var x := r["short_description" := d];
    KeepsCompose(r, x, WithScores(x, sc, background), {"short_description"}, ScoreColumns);
    WithScores(x, sc, background)
  }

  /** Writing the same description and scores twice is writing them once. */
  lemma DescribedScoresTwice(r: Row, d: string, sc: Scores, background: string)
    ensures WithDescribedScores(WithDescribedScores(r, d, sc, background), d, sc, background)
         == WithDescribedScores(r, d, sc, background)
  {
    var r1 := WithDescribedScores(r, d, sc, background);
    assert r1["short_description" := d] == r1;
    WithScoresTwice(r["short_description" := d], sc, background);
  }
}
