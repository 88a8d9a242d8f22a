/**
  Industry suggestion by keyword voting, as the pipelines and the manual-map
  suggestion generator do it: every keyword of the table found in the
  lower-cased text votes for its industry, the most voted industry is
  proposed, and the confidence grows with the number of votes.
*/
module Suggest {
  import opened Base
  import opened Text
  import opened Keywords
  import opened Rows
  import Classifiers

  // ------------------------------------------------------------------ tables

  /** `KEYWORD_MAP` of `run_full_pipeline.py`: eleven industries, no "ai". */
  const NoAiMap: Table := [
    ("介護", "介護・福祉"), ("看護", "介護・福祉"), ("在宅", "介護・福祉"),
    ("検査", "医療機器メーカー"), ("診断", "医療機器メーカー"), ("画像", "医療機器メーカー"), ("医療機器", "医療機器メーカー"),
    ("医療データ", "医療IT・医療データ"), ("医療情報", "医療IT・医療データ"), ("医療saas", "医療IT・医療データ"),
    ("製薬", "製薬・バイオ"), ("バイオ", "製薬・バイオ"), ("薬", "製薬・バイオ"),
    ("栄養", "ヘルスケア食品・栄養"), ("サプリ", "ヘルスケア食品・栄養"),
    ("流通", "医療卸・流通"), ("卸", "医療卸・流通"),
    ("物流", "医療物流"), ("配送", "医療物流"),
    ("出版", "医療メディア・出版"), ("メディア", "医療メディア・出版"),
    ("教育", "教育・研修"), ("研修", "教育・研修"),
    ("フィットネス", "フィットネス・健康サービス"), ("スポーツ", "フィットネス・健康サービス")
  ]

  /** `KEYWORD_MAP` of `run_pipeline.py` and `run_all_pipeline.py`: the same with "ai" after "医療saas". */
  const PipelineMap: Table := NoAiMap[..10] + [("ai", "医療IT・医療データ")] + NoAiMap[10..]

  /** `KEYWORD_MAP` of `run_pipeline_full.py`: six more keywords than `PipelineMap`. */
  const FullMap: Table := [
    ("介護", "介護・福祉"), ("看護", "介護・福祉"), ("在宅", "介護・福祉"),
    ("検査", "医療機器メーカー"), ("診断", "医療機器メーカー"), ("画像", "医療機器メーカー"), ("医療機器", "医療機器メーカー"), ("装置", "医療機器メーカー"),
    ("医療データ", "医療IT・医療データ"), ("医療情報", "医療IT・医療データ"), ("医療saas", "医療IT・医療データ"), ("ai", "医療IT・医療データ"),
    ("製薬", "製薬・バイオ"), ("医薬", "製薬・バイオ"), ("バイオ", "製薬・バイオ"), ("薬", "製薬・バイオ"),
    ("栄養", "ヘルスケア食品・栄養"), ("サプリ", "ヘルスケア食品・栄養"), ("健康食品", "ヘルスケア食品・栄養"),
    ("流通", "医療卸・流通"), ("卸", "医療卸・流通"),
    ("物流", "医療物流"), ("配送", "医療物流"), ("倉庫", "医療物流"),
    ("出版", "医療メディア・出版"), ("メディア", "医療メディア・出版"), ("情報発信", "医療メディア・出版"),
    ("教育", "教育・研修"), ("研修", "教育・研修"), ("スクール", "教育・研修"),
    ("フィットネス", "フィットネス・健康サービス"), ("スポーツ", "フィットネス・健康サービス")
  ]

  /** No table has an empty label, so a proposal is never the empty string. */
  lemma TablesLabelled()
    ensures Classifiers.LabelsNonEmpty(NoAiMap) && Classifiers.LabelsNonEmpty(PipelineMap)
    ensures Classifiers.LabelsNonEmpty(FullMap) && Classifiers.LabelsNonEmpty(Classifiers.KeywordMapV3)
    ensures |NoAiMap| == 25 && |PipelineMap| == 26 && |FullMap| == 32
  {
    NoAiLabelled();
    FullLabelled();
    assert forall i :: 0 <= i < |PipelineMap| ==> PipelineMap[i] in NoAiMap || PipelineMap[i] == ("ai", "医療IT・医療データ");
    Classifiers.V3LabelsNonEmpty();
  }

  /** Every label of `NoAiMap` is non-empty. */
  lemma NoAiLabelled()
    ensures Classifiers.LabelsNonEmpty(NoAiMap)
  {
  }

  /** Every label of `FullMap` is non-empty. */
  lemma FullLabelled()
    ensures Classifiers.LabelsNonEmpty(FullMap)
  {
  }

  // ---------------------------------------------------------------- voting

  /** A proposal: the industry ("" for none), its confidence in hundredths, and the votes. */
  datatype Suggestion = Suggestion(industry: string, conf: nat, hits: seq<string>)

  /** `suggest_industry_from_text(text)`: confidence from the number of votes. */
  function SuggestFrom(t: Table, text: string): Suggestion
  {
    var hits := Hits(t, Lower(text));
    if hits == [] then Suggestion("", 0, [])
    else Suggestion(MostCommon(hits).0, Confidence(|hits|), hits)
  }

  /** Every vote is the label of a keyword found in the lower-cased text. */
  lemma HitsAreLabels(t: Table, text: string, x: string)
    requires x in Hits(t, text)
    ensures exists j :: 0 <= j < |t| && Contains(text, t[j].0) && t[j].1 == x
  {
    HitsMember(t, text, x);
  }

  /**
    No vote, no proposal; otherwise the proposal is the industry with the
    most votes, the earliest voted among equals, and the confidence is 0.6 or
    more exactly with two votes and 0.8 or more exactly with three.
  */
  lemma SuggestSpec(t: Table, text: string)
    requires Classifiers.LabelsNonEmpty(t)
    ensures var r := SuggestFrom(t, text);
      && r.hits == Hits(t, Lower(text))
      && (r.industry == "" <==> r.hits == [])
      && (r.hits == [] ==> r.conf == 0)
      && (r.hits != [] ==> r.industry in r.hits && forall x :: x in r.hits ==> Count(r.hits, x) <= Count(r.hits, r.industry))
      && (forall x :: x in r.hits && x != r.industry && Count(r.hits, x) == Count(r.hits, r.industry)
            ==> FirstIndex(r.hits, r.industry) < FirstIndex(r.hits, x))
      && (r.conf >= 60 <==> |r.hits| >= 2)
      && (r.conf >= 80 <==> |r.hits| >= 3)
  {
    var r := SuggestFrom(t, text);
    ConfidenceThresholds(|r.hits|);
    if r.hits != [] {
      HitsAreLabels(t, Lower(text), r.industry);
    }
  }

  /** A suggestion that names an industry with at least 0.8 confidence was backed by three votes or more. */
  lemma AutoThreshold(t: Table, text: string)
    requires Classifiers.LabelsNonEmpty(t)
    ensures var r := SuggestFrom(t, text);
      (r.industry != "" && r.conf >= 80) <==> |Hits(t, Lower(text))| >= 3
  {
    SuggestSpec(t, text);
  }

  // ------------------------------------------- generate_manual_map_suggestions.py

  /**
    `score_suggestion(text)`: the same vote over the table of
    `improve_industry_v3.py`, but the confidence counts only the votes of
    the winning industry.
  */
  function ScoreSuggestion(text: string): (Option<string>, nat)
  {
    var hits := Hits(Classifiers.KeywordMapV3, Lower(text));
    if hits == [] then (None, 0)
    else
      var (cand, cnt) := MostCommon(hits);
      (Some(cand), Confidence(cnt))
  }

  /**
    The generator proposes the same industry as the pipelines' vote on the
    same table, with a confidence that never exceeds theirs and equals it
    when every vote went to the winner.
  */
  lemma ScoreSuggestionVersusPipeline(text: string)
    ensures var (cand, conf) := ScoreSuggestion(text);
      var s := SuggestFrom(Classifiers.KeywordMapV3, text);
      && (cand.None? <==> s.hits == [])
      && (cand.Some? ==> cand.value == s.industry && conf == Confidence(Count(s.hits, s.industry)))
      && conf <= s.conf
      && (cand.Some? && Count(s.hits, s.industry) == |s.hits| ==> conf == s.conf)
  {
  }

  /** The text the generator votes on: stripped name, description, raw keywords and raw domains. */
  function GeneratorText(row: Row): string
  {
    Join(" ", [Strip(Get(row, "company_name")), Get(row, "short_description"), Get(row, "raw_medical_keywords"), Get(row, "raw_medical_domains")])
  }

  /** The five cells of a suggestion line. */
  function LineOf(cid: string, name: string, industry: string, conf: nat): (line: Row)
    ensures line.Keys == {"company_id", "company_name", "suggested_industry", "confidence", "note"}
    ensures line["company_id"] == cid && line["company_name"] == name && line["suggested_industry"] == industry
    ensures line["confidence"] == HundredthsToString(conf) && line["note"] == ""
  {
    map["company_id" := cid, "company_name" := name, "suggested_industry" := industry,
        "confidence" := HundredthsToString(conf), "note" := ""]
  }

  /** One line of `manual_industry_map_suggestions.csv` for a company row. */
  function SuggestionLine(row: Row): (line: Row)
  {
    var (cand, conf) := ScoreSuggestion(GeneratorText(row));
    LineOf(Strip(Get(row, "company_id")), Strip(Get(row, "company_name")),
           match cand case Some(c) => c case None => "", conf)
  }

  /**
    Each line carries the stripped id and name, an empty note, a confidence
    that reads back as the computed hundredths, and an empty industry
    exactly when no keyword was found.
  */
  lemma SuggestionLineSpec(row: Row)
    ensures var line := SuggestionLine(row);
      && line.Keys == {"company_id", "company_name", "suggested_industry", "confidence", "note"}
      && line["company_id"] == Strip(Get(row, "company_id"))
      && line["note"] == ""
      && Hundredths(line["confidence"]) == Some(ScoreSuggestion(GeneratorText(row)).1)
      && (line["suggested_industry"] == "" <==> Hits(Classifiers.KeywordMapV3, Lower(GeneratorText(row))) == [])
  {
    var text := GeneratorText(row);
    HundredthsRoundTrip(ScoreSuggestion(text).1);
    Classifiers.V3LabelsNonEmpty();
    SuggestSpec(Classifiers.KeywordMapV3, text);
  }

  /** The rows of an input file, none when the file does not exist. */
  function RowsOf(file: Option<seq<Row>>): seq<Row>
  {
    match file
    case Some(rs) => rs
    case None => []
  }

  /**
    The whole file: the lines of `others_companies.csv` first, then those of
    `top100_by_score.csv`; a missing input contributes nothing.
  */
  method GenerateSuggestions(others: Option<seq<Row>>, top100: Option<seq<Row>>) returns (lines: seq<Row>)
    ensures |lines| == |RowsOf(others)| + |RowsOf(top100)|
    ensures forall i :: 0 <= i < |RowsOf(others)| ==> lines[i] == SuggestionLine(RowsOf(others)[i])
    ensures forall i :: 0 <= i < |RowsOf(top100)| ==> lines[|RowsOf(others)| + i] == SuggestionLine(RowsOf(top100)[i])
  {
    var first := MapRows(RowsOf(others), SuggestionLine);
    var second := MapRows(RowsOf(top100), SuggestionLine);
    MappedConcat(RowsOf(others), RowsOf(top100), SuggestionLine, first, second);
    lines := first + second;
  }
}
