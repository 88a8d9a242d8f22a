/**
  The row loops of the stand-alone scoring scripts: `compute_scores.py`,
  `finalize_templates_and_scores.py`, `fill_scores.py`, `rescale_scores.py`,
  `refine_templates_v2.py` and `refine_descriptions.py`. Each reads the
  relevance score with `int(... or 0)` (0 when it does not parse), writes
  some derived columns into every row and leaves the other columns as they
  were.
*/
module ScoreScripts {
  import opened Base
  import opened Text
  import opened Keywords
  import opened Rows
  import opened Dicts
  import opened Scoring
  import opened Descriptions

  // ------------------------------------------------------------------ header

  /** `for fld in fields: if fld not in fieldnames: fieldnames.append(fld)`. */
  function AddMissing(header: seq<string>, fields: seq<string>): seq<string>
    decreases |fields|
  {
    if fields == [] then header
    else AddMissing(if fields[0] in header then header else header + [fields[0]], fields[1..])
  }

  lemma CountSnoc(s: seq<string>, y: string, f: string)
    ensures Count(s + [y], f) == Count(s, f) + (if y == f then 1 else 0)
  {
    assert (s + [y])[..|s|] == s;
  }

  /**
    The old header is kept as a prefix; a field already present keeps its
    occurrences and a missing one is appended exactly once; no other name
    is added.
  */
  lemma {:induction false} AddMissingSpec(header: seq<string>, fields: seq<string>)
    ensures var r := AddMissing(header, fields);
      && header <= r
      && (forall f :: f in fields ==> Count(r, f) == if f in header then Count(header, f) else 1)
      && (forall f :: f !in fields ==> Count(r, f) == Count(header, f))
    decreases |fields|
  {
    if fields != [] {
      var y := fields[0];
      var h1 := if y in header then header else header + [y];
      AddMissingSpec(h1, fields[1..]);
      var r := AddMissing(h1, fields[1..]);
      assert r == AddMissing(header, fields);
      forall f ensures Count(h1, f) == Count(header, f) + (if y == f && y !in header then 1 else 0) {
        if y !in header { CountSnoc(header, y, f); }
      }
      forall f | f in fields ensures Count(r, f) == if f in header then Count(header, f) else 1 {
        if f != y {
          assert f in fields[1..];
        }
      }
    }
  }

  /** The header loop: it appends each missing field in turn. */
  method EnsureHeader(header: seq<string>, fields: seq<string>) returns (h: seq<string>)
    ensures h == AddMissing(header, fields)
  {
    h := header;
    var i := 0;
    while i < |fields|
      invariant 0 <= i <= |fields|
      invariant AddMissing(h, fields[i..]) == AddMissing(header, fields)
    {
      assert fields[i..][1..] == fields[i + 1..];
      if fields[i] !in h {
        h := h + [fields[i]];
      }
      i := i + 1;
    }
  }

  // ------------------------------------------------------- compute_scores.py

  /** `int(row.get("medical_relevance_score") or 0)`, 0 when it does not parse. */
  function Relevance(r: Row): int
  {
    IntOrZero(Get(r, Score))
  }

  /** One row of `compute_scores.py`: the six columns from the score and the industry. */
  function ScoredRow(r: Row): (r': Row)
    ensures Keeps(r, r', ScoreColumns)
  {
    var industry := Get(r, "industry");
    WithScores(r, ComputeScores(Relevance(r), industry), TargetBackground(industry))
  }

  /**
    The written scores read back as `ComputeScores` of the parsed score (the
    bucket tables of `compute_scores.py`), the background follows the
    industry, and the score, the industry and every other column are
    unchanged.
  */
  lemma ScoredRowSpec(r: Row)
    ensures var r', industry := ScoredRow(r), Get(r, "industry");
      var sc := ComputeScores(Relevance(r), industry);
      && ParseInt(r'["side_job_fit_score"]) == Some(sc.s)
      && ParseInt(r'["career_shift_fit_score"]) == Some(sc.c)
      && ParseInt(r'["hybrid_fit_score"]) == Some(sc.h)
      && ParseInt(r'["learning_growth_score"]) == Some(sc.lg)
      && ParseInt(r'["risk_level"]) == Some(sc.rl)
      && r'["target_background"] == TargetBackground(industry)
      && Keeps(r, r', ScoreColumns)
  {
    var industry := Get(r, "industry");
    ScoresReadBack(r, ComputeScores(Relevance(r), industry), TargetBackground(industry));
  }

  /** Scoring a scored row again changes nothing: the score and the industry are not written. */
  lemma ScoredRowIdempotent(r: Row)
    ensures ScoredRow(ScoredRow(r)) == ScoredRow(r)
  {
    var r1, industry := ScoredRow(r), Get(r, "industry");
    ScoreColumnsExclude();
    assert Get(r1, Score) == Get(r, Score) && Get(r1, "industry") == industry;
    WithScoresTwice(r, ComputeScores(Relevance(r), industry), TargetBackground(industry));
  }

  /** The whole script: the header gains the six columns it lacks, and every row is scored. */
  method ComputeScoresFile(header: seq<string>, rows: seq<Row>) returns (h: seq<string>, out: seq<Row>)
    ensures h == AddMissing(header, ScoreHeader)
    ensures |out| == |rows| && forall i :: 0 <= i < |rows| ==> out[i] == ScoredRow(rows[i])
  {
    h := EnsureHeader(header, ScoreHeader);
    out := MapRows(rows, ScoredRow);
  }

  // ---------------------------------------- finalize_templates_and_scores.py

  /** The seven columns of the finalising script, in header order. */
  const FinalHeader := ScoreHeader + ["short_description"]


  /** One row of the finalising loop: `recompute_scores`, the background, then the description fitted to 30..45. */
  function FinalizedRow(r: Row): (r': Row)
    ensures Keeps(r, r', FinalColumns)
  {
    var industry := Get(r, "industry");
    WithDescribedScores(r, FitText(Get(r, "short_description"), industry, FinalTemplates),
                        Recompute(Relevance(r), industry), TargetBackground(industry))
  }

  /**
    The scores read back as `Recompute` of the parsed score, the description
    is the stripped text or its template cut to at most 45 characters, and
    every column outside the seven is unchanged.
  */
  lemma FinalizedRowSpec(r: Row)
    ensures var r', industry := FinalizedRow(r), Get(r, "industry");
      var sc := Recompute(Relevance(r), industry);
      && ParseInt(r'["side_job_fit_score"]) == Some(sc.s)
      && ParseInt(r'["career_shift_fit_score"]) == Some(sc.c)
      && ParseInt(r'["hybrid_fit_score"]) == Some(sc.h)
      && ParseInt(r'["learning_growth_score"]) == Some(sc.lg)
      && ParseInt(r'["risk_level"]) == Some(sc.rl)
      && r'["target_background"] == TargetBackground(industry)
      && r'["short_description"] == FitText(Get(r, "short_description"), industry, FinalTemplates)
      && |r'["short_description"]| <= 45
      && Keeps(r, r', FinalColumns)
  {
    var industry := Get(r, "industry");
    var sc := Recompute(Relevance(r), industry);
    var x := r["short_description" := FitText(Get(r, "short_description"), industry, FinalTemplates)];
    ScoresReadBack(x, sc, TargetBackground(industry));
  }

  /** Finalising a finalised row changes nothing. */
  lemma FinalizedRowIdempotent(r: Row)
    ensures FinalizedRow(FinalizedRow(r)) == FinalizedRow(r)
  {
    var industry := Get(r, "industry");
    var d := FitText(Get(r, "short_description"), industry, FinalTemplates);
    var sc, bg := Recompute(Relevance(r), industry), TargetBackground(industry);
    var r1 := FinalizedRow(r);
    ScoreColumnsExclude();
    assert Get(r1, Score) == Get(r, Score) && Get(r1, "industry") == industry && Get(r1, "short_description") == d;
    FinalTemplatesWellFormed();
    FitTextIdempotent(Get(r, "short_description"), industry, FinalTemplates);
    DescribedScoresTwice(r, d, sc, bg);
  }

  /** The whole script: the header gains the seven columns it lacks, and every row is finalised. */
  method FinalizeFile(header: seq<string>, rows: seq<Row>) returns (h: seq<string>, out: seq<Row>)
    ensures h == AddMissing(header, FinalHeader)
    ensures |out| == |rows| && forall i :: 0 <= i < |rows| ==> out[i] == FinalizedRow(rows[i])
  {
    h := EnsureHeader(header, FinalHeader);
    out := MapRows(rows, FinalizedRow);
  }

  // ----------------------------------------------------------- fill_scores.py

  const FillColumns := {"side_job_fit_score", "career_shift_fit_score", "hybrid_fit_score"}

  /** One row of `fill_scores.py`: its own two tables and their average. */
  function FilledRow(r: Row): (r': Row)
    ensures Keeps(r, r', FillColumns)
  {
    var ms := Relevance(r);
    WriteFill(r, FillSideJobFit(ms), FillCareerShiftFit(ms))
  }

  /** The three cells the fill loop writes. */
  function FillCells(s: int, c: int): (cells: seq<(string, string)>)
    requires s + c >= 0
    ensures |cells| == 3 && forall i :: 0 <= i < 3 ==> cells[i].0 == ScoreHeader[i]
  {
    [("side_job_fit_score", IntToString(s)), ("career_shift_fit_score", IntToString(c)),
     ("hybrid_fit_score", IntToString(Half(s + c)))]
  }

  /** The fill cells write each of their three columns once. */
  lemma FillCellsColumns(s: int, c: int)
    requires s + c >= 0
    ensures DistinctColumns(FillCells(s, c)) && Columns(FillCells(s, c)) == FillColumns
  {
    ScoreHeaderDistinct();
    var cells := FillCells(s, c);
    assert cells[0].0 in Columns(cells) && cells[1].0 in Columns(cells) && cells[2].0 in Columns(cells);
  }

  /** The three cells written into a row. */
  function WriteFill(r: Row, s: int, c: int): (r': Row)
    requires s + c >= 0
    ensures Keeps(r, r', FillColumns)
    ensures "side_job_fit_score" in r' && r'["side_job_fit_score"] == IntToString(s)
    ensures "career_shift_fit_score" in r' && r'["career_shift_fit_score"] == IntToString(c)
    ensures "hybrid_fit_score" in r' && r'["hybrid_fit_score"] == IntToString(Half(s + c))
  {
    var cells := FillCells(s, c);
    FillCellsColumns(s, c);
    WriteKeeps(r, cells);
    WriteAt(r, cells, 0);
    WriteAt(r, cells, 1);
    WriteAt(r, cells, 2);
    Write(r, cells)
  }

  /** The three written scores read back as the fill tables and their average (50 or 55); nothing else changes. */
  lemma FilledRowSpec(r: Row)
    ensures var r', ms := FilledRow(r), Relevance(r);
      && ParseInt(r'["side_job_fit_score"]) == Some(FillSideJobFit(ms))
      && ParseInt(r'["career_shift_fit_score"]) == Some(FillCareerShiftFit(ms))
      && ParseInt(r'["hybrid_fit_score"]) == Some((FillSideJobFit(ms) + FillCareerShiftFit(ms)) / 2)
      && (FillSideJobFit(ms) + FillCareerShiftFit(ms)) / 2 in {50, 55}
      && Keeps(r, r', FillColumns)
  {
    var ms := Relevance(r);
    ParseIntToString(FillSideJobFit(ms));
    ParseIntToString(FillCareerShiftFit(ms));
    ParseIntToString(Half(FillSideJobFit(ms) + FillCareerShiftFit(ms)));
    FillProperties(ms, ms);
  }

  /** Filling a filled row changes nothing. */
  lemma FilledRowIdempotent(r: Row)
    ensures FilledRow(FilledRow(r)) == FilledRow(r)
  {
    var ms := Relevance(r);
    var r1 := FilledRow(r);
    assert |Score| == 23 && Score !in FillColumns;
    assert Get(r1, Score) == Get(r, Score);
    FillCellsColumns(FillSideJobFit(ms), FillCareerShiftFit(ms));
    WriteTwice(r, FillCells(FillSideJobFit(ms), FillCareerShiftFit(ms)));
  }

  // -------------------------------------------------------- rescale_scores.py

  const RescaleColumns := {Score, "side_job_fit_score", "career_shift_fit_score", "hybrid_fit_score",
                           "learning_growth_score", "risk_level"}


  /**
    One row of the rescaling loop: `scale` stands for the percentile mapping
    computed from the whole score column; the scaled score replaces the
    stored one and drives every derived column.
  */
  function RescaledRow(r: Row, scale: int -> int): (r': Row)
    ensures Keeps(r, r', RescaleColumns)
  {
    var scaled := scale(Relevance(r));
    WriteRescaled(r, scaled, Rescale(scaled, Get(r, "industry")))
  }

  /** The columns the rescaling loop writes, in order. */
  const RescaleHeader := [Score, "side_job_fit_score", "career_shift_fit_score", "hybrid_fit_score",
                          "learning_growth_score", "risk_level"]

  /** The six cells the rescaling loop writes: the scaled score, then five scores. */
  function RescaleCells(scaled: int, sc: Scores): (cells: seq<(string, string)>)
    ensures |cells| == 6 && forall i :: 0 <= i < 6 ==> cells[i].0 == RescaleHeader[i]
  {
    [(Score, IntToString(scaled)), ("side_job_fit_score", IntToString(sc.s)),
     ("career_shift_fit_score", IntToString(sc.c)), ("hybrid_fit_score", IntToString(sc.h)),
     ("learning_growth_score", IntToString(sc.lg)), ("risk_level", IntToString(sc.rl))]
  }

  /** The six rescaled columns are distinct. */
  lemma RescaleHeaderDistinct()
    ensures forall i, j :: 0 <= i < j < |RescaleHeader| ==> RescaleHeader[i] != RescaleHeader[j]
  {
    assert |RescaleHeader[0]| == 23 && |RescaleHeader[1]| == 18 && |RescaleHeader[2]| == 22;
    assert |RescaleHeader[3]| == 16 && |RescaleHeader[4]| == 21 && |RescaleHeader[5]| == 10;
  }

  /** The rescaling cells write each of their six columns once. */
  lemma RescaleCellsColumns(scaled: int, sc: Scores)
    ensures DistinctColumns(RescaleCells(scaled, sc)) && Columns(RescaleCells(scaled, sc)) == RescaleColumns
  {
    RescaleHeaderDistinct();
    var cells := RescaleCells(scaled, sc);
    assert cells[0].0 in Columns(cells) && cells[1].0 in Columns(cells) && cells[2].0 in Columns(cells);
    assert cells[3].0 in Columns(cells) && cells[4].0 in Columns(cells) && cells[5].0 in Columns(cells);
  }

  /** The six cells written into a row. */
  function WriteRescaled(r: Row, scaled: int, sc: Scores): (r': Row)
    ensures Keeps(r, r', RescaleColumns)
    ensures Score in r' && r'[Score] == IntToString(scaled)
    ensures "side_job_fit_score" in r' && r'["side_job_fit_score"] == IntToString(sc.s)
    ensures "career_shift_fit_score" in r' && r'["career_shift_fit_score"] == IntToString(sc.c)
    ensures "hybrid_fit_score" in r' && r'["hybrid_fit_score"] == IntToString(sc.h)
    ensures "learning_growth_score" in r' && r'["learning_growth_score"] == IntToString(sc.lg)
    ensures "risk_level" in r' && r'["risk_level"] == IntToString(sc.rl)
  {
    var cells := RescaleCells(scaled, sc);
    RescaleCellsColumns(scaled, sc);
    WriteKeeps(r, cells);
    WriteAt(r, cells, 0);
    WriteAt(r, cells, 1);
    WriteAt(r, cells, 2);
    WriteAt(r, cells, 3);
    WriteAt(r, cells, 4);
    WriteAt(r, cells, 5);
    Write(r, cells)
  }

  /** The stored score reads back as the scaled one, the five scores as `Rescale` of it, and nothing else changes. */
  lemma RescaledRowSpec(r: Row, scale: int -> int)
    ensures var r', scaled := RescaledRow(r, scale), scale(Relevance(r));
      var sc := Rescale(scaled, Get(r, "industry"));
      && ParseInt(r'[Score]) == Some(scaled)
      && ParseInt(r'["side_job_fit_score"]) == Some(sc.s)
      && ParseInt(r'["career_shift_fit_score"]) == Some(sc.c)
      && ParseInt(r'["hybrid_fit_score"]) == Some(sc.h)
      && ParseInt(r'["learning_growth_score"]) == Some(sc.lg)
      && ParseInt(r'["risk_level"]) == Some(sc.rl)
      && Keeps(r, r', RescaleColumns)
  {
    var scaled := scale(Relevance(r));
    var sc := Rescale(scaled, Get(r, "industry"));
    ParseIntToString(scaled);
    ParseIntToString(sc.s);
    ParseIntToString(sc.c);
    ParseIntToString(sc.h);
    ParseIntToString(sc.lg);
    ParseIntToString(sc.rl);
  }

  /** The script stops on an empty file; otherwise every row is rescaled. */
  method RescaleFile(rows: seq<Row>, scale: int -> int) returns (out: Result<seq<Row>>)
    ensures out.Err? <==> rows == []
    ensures out.Ok? ==> |out.value| == |rows| && forall i :: 0 <= i < |rows| ==> out.value[i] == RescaledRow(rows[i], scale)
  {
    if |rows| == 0 {
      return Err("データがありません");
    }
    var rescaled := MapRows(rows, r => RescaledRow(r, scale));
    out := Ok(rescaled);
  }

  // ---------------------------------------------------- refine_templates_v2.py

  /** One row of `refine_templates_v2.py`: only the description is rewritten, by `fit_text`. */
  function RefinedRow(r: Row): Row
  {
    r["short_description" := FitText(Get(r, "short_description"), Get(r, "industry"), RefineTemplates)]
  }

  /**
    The description is the stripped text, or the template when the text is
    shorter than 30 and the industry has one, cut to at most 45 characters;
    the fitness industry has no template; nothing else changes.
  */
  lemma RefinedRowSpec(r: Row)
    ensures var r', t, tpl := RefinedRow(r), Strip(Get(r, "short_description")), Lookup(RefineTemplates, Get(r, "industry"));
      && |r'["short_description"]| <= 45
      && (|t| < 30 && tpl.Some? ==> r'["short_description"] == tpl.value)
      && (|t| < 30 && tpl.None? ==> r'["short_description"] == t)
      && (30 <= |t| <= 45 ==> r'["short_description"] == t)
      && (|t| > 45 ==> r'["short_description"] == t[..44] + [Ellipsis])
      && Keeps(r, r', {"short_description"})
    ensures Lookup(RefineTemplates, "フィットネス・健康サービス").None?
  {
    var industry := Get(r, "industry");
    RefineTemplatesWellFormed();
    FitTextCases(Get(r, "short_description"), industry, RefineTemplates);
    var tpl := Lookup(RefineTemplates, industry);
    if tpl.Some? {
      var i := IndexOf(RefineTemplates, industry).value;
      assert WellFormedText(RefineTemplates[i].1);
    }
    NoFitnessTemplate();
  }

  /** `refine_templates_v2.py` has no template for the fitness industry. */
  lemma NoFitnessTemplate()
    ensures Lookup(RefineTemplates, "フィットネス・健康サービス").None?
  {
    forall i | 0 <= i < |RefineTemplates| ensures RefineTemplates[i].0 != "フィットネス・健康サービス" {
      assert |RefineTemplates[i].0| != |"フィットネス・健康サービス"|;
    }
  }

  /** Refining a refined row changes nothing. */
  lemma RefinedRowIdempotent(r: Row)
    ensures RefinedRow(RefinedRow(r)) == RefinedRow(r)
  {
    RefineTemplatesWellFormed();
    FitTextIdempotent(Get(r, "short_description"), Get(r, "industry"), RefineTemplates);
  }

  // ---------------------------------------------------- refine_descriptions.py

  /** One row of `refine_descriptions.py`: the description (empty when missing) shortened to 45. */
  function ShortenedRow(r: Row): Row
  {
    r["short_description" := Shorten(Get(r, "short_description"), 45)]
  }

  /**
    A description of at most 45 characters is kept, a longer one becomes its
    first 44 characters and "…", a missing one becomes empty; shortening
    again changes nothing, and no other column changes.
  */
  lemma ShortenedRowSpec(r: Row)
    ensures var r', d := ShortenedRow(r), Get(r, "short_description");
      && |r'["short_description"]| <= 45
      && (|d| <= 45 ==> r'["short_description"] == d)
      && (|d| > 45 ==> r'["short_description"] == d[..44] + [Ellipsis])
      && ("short_description" !in r ==> r'["short_description"] == "")
      && ShortenedRow(r') == r'
      && Keeps(r, r', {"short_description"})
  {
    var d := Get(r, "short_description");
    ShortenIdempotent(d, 45);
    if |d| > 45 {
      assert Shorten(d, 45) == d[..44] + [Ellipsis];
    }
  }
}
