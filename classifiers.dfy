/**
  The relabelling scripts: each computes an industry for every company row
  from the words in some of its columns and writes every row back, in order,
  with only the `industry` column changed.

  - `reclassify_industry.py` and `improve_industry.py`: `if/elif` cascades.
  - `improve_industry_v2.py` and `improve_industry_v3.py`: first match over
    an ordered keyword dictionary.
  - `apply_keyword_map_extension.py` and `auto_apply_suggested_keywords.py`:
    first match, applied only to rows labelled "その他医療関連".
*/
module Classifiers {
  import opened Base
  import opened Text
  import opened Dicts
  import opened Keywords
  import opened Rows

  /** The label found by the rules, else `row.get("industry") or "その他医療関連"`. */
  function LabelOr(found: Option<string>, row: Row): string
  {
    match found
    case Some(l) => l
    case None => GetOr(row, "industry", Other)
  }

  /**
    Re-running a classifier on its own output keeps the label when the rules
    find the same thing again: a found label is found again, and otherwise
    the stored label, never empty, is returned as it is.
  */
  lemma ReapplyKeepsLabel(found: Option<string>, row: Row)
    requires found.Some? ==> found.value != ""
    ensures LabelOr(found, Assign(row, "industry", LabelOr(found, row))) == LabelOr(found, row)
  {
  }

  /** A table whose labels are all non-empty. */
  predicate LabelsNonEmpty(t: Table)
  {
    forall i :: 0 <= i < |t| ==> t[i].1 != ""
  }

  /** A cascade whose labels are all non-empty. */
  predicate RuleLabelsNonEmpty(rules: Rules)
  {
    forall i :: 0 <= i < |rules| ==> rules[i].1 != ""
  }

  /** What a table finds is one of its labels, so never empty when no label is. */
  lemma FoundNonEmpty(t: Table, text: string)
    requires LabelsNonEmpty(t)
    ensures FirstMatch(t, text).Some? ==> FirstMatch(t, text).value != ""
  {
  }

  /** What a cascade finds is one of its labels, so never empty when no label is. */
  lemma CascadeNonEmpty(rules: Rules, text: string)
    requires RuleLabelsNonEmpty(rules)
    ensures Cascade(rules, text).Some? ==> Cascade(rules, text).value != ""
  {
    CascadeSpec(rules, text);
  }

  /** A table with non-empty labels keeps its label when re-run on its own output. */
  lemma TableReapply(t: Table, text: string, row: Row)
    requires LabelsNonEmpty(t)
    ensures LabelOr(FirstMatch(t, text), Assign(row, "industry", LabelOr(FirstMatch(t, text), row)))
      == LabelOr(FirstMatch(t, text), row)
  {
    FoundNonEmpty(t, text);
    ReapplyKeepsLabel(FirstMatch(t, text), row);
  }

  /** `row["industry"] = classify(row)` for every row, every row written in order. */
  method RelabelRows(rows: seq<Row>, classify: Row -> string) returns (out: seq<Row>)
    ensures |out| == |rows|
    ensures forall i :: 0 <= i < |rows| ==> out[i] == Assign(rows[i], "industry", classify(rows[i]))
  {
    out := [];
    var i := 0;
    while i < |rows|
      invariant 0 <= i <= |rows|
      invariant |out| == i
      invariant forall j :: 0 <= j < i ==> out[j] == Assign(rows[j], "industry", classify(rows[j]))
    {
      out := out + [Assign(rows[i], "industry", classify(rows[i]))];
      i := i + 1;
    }
  }

  // ------------------------------------------------------- reclassify_industry.py

  /** The `classify_by_keywords` cascade, on lower-cased text. */
  const ReclassifyRules: Rules := [
    (["医療機器", "検査", "画像"], "医療機器メーカー"),
    (["製薬", "医薬", "バイオ"], "製薬・バイオ"),
    (["オンライン", "it", "データ", "dx", "システム"], "医療IT・医療データ"),
    (["介護", "在宅", "福祉"], "介護・福祉"),
    (["流通", "卸", "供給"], "医療卸・流通"),
    (["物流", "配送"], "医療物流"),
    (["衛生", "感染", "マスク"], "衛生・感染対策"),
    (["栄養", "サプリ", "健康食品"], "ヘルスケア食品・栄養"),
    (["フィットネス", "運動"], "フィットネス・健康サービス"),
    (["出版", "メディア", "情報発信"], "医療メディア・出版"),
    (["教育", "研修", "スクール"], "教育・研修")
  ]

  /** Description, name and current industry, comma-joined and lower-cased. */
  function ReclassifyText(row: Row): string
  {
    Lower(Get(row, "short_description") + "," + Get(row, "company_name") + "," + Get(row, "industry"))
  }

  /** `classify_by_keywords`. */
  function ClassifyByKeywords(row: Row): string
  {
    LabelOr(Cascade(ReclassifyRules, ReclassifyText(row)), row)
  }

  /**
    The label of the first rule with a word in the text, with no earlier
    rule firing; else the current industry, or "その他医療関連" when it is
    empty. Either way the label is not empty.
  */
  lemma {:induction false} ClassifyByKeywordsSpec(row: Row)
    ensures var text, r := ReclassifyText(row), ClassifyByKeywords(row);
      && r != ""
      && ((forall i :: 0 <= i < |ReclassifyRules| ==> !Fires(ReclassifyRules[i].0, text))
          ==> r == GetOr(row, "industry", Other))
      && ((exists i :: 0 <= i < |ReclassifyRules| && Fires(ReclassifyRules[i].0, text))
          ==> exists i :: 0 <= i < |ReclassifyRules| && Fires(ReclassifyRules[i].0, text) && r == ReclassifyRules[i].1
                && forall j :: 0 <= j < i ==> !Fires(ReclassifyRules[j].0, text))
  {
    var text := ReclassifyText(row);
    CascadeSpec(ReclassifyRules, text);
    assert RuleLabelsNonEmpty(ReclassifyRules);
    CascadeNonEmpty(ReclassifyRules, text);
  }

  /**
    Matching is case-insensitive for ASCII: a description mentioning "IT" in
    any case fires the IT rule, so the label is that rule's or an earlier one's.
  */
  lemma ReclassifyUpperIT(row: Row)
    requires Contains(Get(row, "short_description"), "IT")
    ensures ClassifyByKeywords(row) in {"医療機器メーカー", "製薬・バイオ", "医療IT・医療データ"}
  {
    var desc := Get(row, "short_description");
    var raw := desc + "," + Get(row, "company_name") + "," + Get(row, "industry");
    assert raw == desc + ("," + Get(row, "company_name") + "," + Get(row, "industry"));
    ContainsInPrefix(desc, "," + Get(row, "company_name") + "," + Get(row, "industry"), "IT");
    ContainsLowered(raw, "IT");
    assert Lower("IT") == "it";
    var text := ReclassifyText(row);
    assert Fires(ReclassifyRules[2].0, text) by {
      assert "it" in ReclassifyRules[2].0;
    }
    CascadeSpec(ReclassifyRules, text);
    var i :| 0 <= i < |ReclassifyRules| && Fires(ReclassifyRules[i].0, text)
      && Cascade(ReclassifyRules, text).value == ReclassifyRules[i].1
      && forall j :: 0 <= j < i ==> !Fires(ReclassifyRules[j].0, text);
    assert i <= 2;
  }

  /** The row loop of `reclassify_industry.py`. */
  method ReclassifyRows(rows: seq<Row>) returns (out: seq<Row>)
    ensures |out| == |rows|
    ensures forall i :: 0 <= i < |rows| ==> out[i] == Assign(rows[i], "industry", ClassifyByKeywords(rows[i]))
  {
    out := RelabelRows(rows, ClassifyByKeywords);
  }

  // ---------------------------------------------------------- improve_industry.py

  /** The IT rule, checked before every other one. */
  const ImproveItRule: (seq<string>, string) := (["it", "システム", "データ", "dx", "オンライン"], "医療IT・医療データ")

  /** The `classify` cascade of `improve_industry.py`, IT first and 物流 before 流通. */
  const ImproveRules: Rules := [
    ImproveItRule,
    (["機器", "検査", "画像", "装置"], "医療機器メーカー"),
    (["製薬", "医薬", "バイオ", "薬"], "製薬・バイオ"),
    (["介護", "在宅", "福祉"], "介護・福祉"),
    (["物流", "配送", "倉庫"], "医療物流"),
    (["流通", "卸", "供給"], "医療卸・流通"),
    (["栄養", "サプリ", "健康食品"], "ヘルスケア食品・栄養"),
    (["出版", "メディア", "情報発信"], "医療メディア・出版"),
    (["教育", "研修", "スクール"], "教育・研修")
  ]

  /** Lower-cased name, a space, lower-cased description; no other column is read. */
  function NameDescText(row: Row): string
  {
    Lower(Get(row, "company_name")) + " " + Lower(Get(row, "short_description"))
  }

  /** `classify` of `improve_industry.py`. */
  function ImproveClassify(row: Row): string
  {
    LabelOr(Cascade(ImproveRules, NameDescText(row)), row)
  }

  /** Any IT word decides, whatever else the text names. */
  lemma ImproveItFirst(row: Row)
    requires Fires(ImproveItRule.0, NameDescText(row))
    ensures ImproveClassify(row) == "医療IT・医療データ"
  {
    assert ImproveRules[0] == ImproveItRule;
  }

  /**
    The logistics rule comes before the wholesale rule: once no earlier rule
    fires, 物流 gives 医療物流 even when 流通 also occurs.
  */
  lemma ImproveLogisticsFirst(row: Row)
    requires forall i :: 0 <= i < 4 ==> !Fires(ImproveRules[i].0, NameDescText(row))
    requires Contains(NameDescText(row), "物流")
    ensures ImproveClassify(row) == "医療物流"
  {
    var text := NameDescText(row);
    assert Fires(ImproveRules[4].0, text) by {
      assert "物流" in ImproveRules[4].0;
    }
    CascadeSkip(ImproveRules, 4, text);
  }

  /** Re-running `classify` on its output gives the same label: the text does not read the industry. */
  lemma ImproveIdempotent(row: Row)
    ensures ImproveClassify(Assign(row, "industry", ImproveClassify(row))) == ImproveClassify(row)
  {
    var row' := Assign(row, "industry", ImproveClassify(row));
    assert NameDescText(row') == NameDescText(row);
    assert RuleLabelsNonEmpty(ImproveRules);
    CascadeNonEmpty(ImproveRules, NameDescText(row));
    ReapplyKeepsLabel(Cascade(ImproveRules, NameDescText(row)), row);
  }

  /** The row loop of `improve_industry.py`. */
  method ImproveRows(rows: seq<Row>) returns (out: seq<Row>)
    ensures |out| == |rows|
    ensures forall i :: 0 <= i < |rows| ==> out[i] == Assign(rows[i], "industry", ImproveClassify(rows[i]))
  {
    out := RelabelRows(rows, ImproveClassify);
  }

  // ------------------------------------------------------- improve_industry_v2.py

  const KeywordMapV2: Table := [
    ("医療it", "医療IT・医療データ"),
    ("システム", "医療IT・医療データ"),
    ("データ", "医療IT・医療データ"),
    ("dx", "医療IT・医療データ"),
    ("オンライン", "医療IT・医療データ"),
    ("機器", "医療機器メーカー"),
    ("検査", "医療機器メーカー"),
    ("装置", "医療機器メーカー"),
    ("製薬", "製薬・バイオ"),
    ("医薬", "製薬・バイオ"),
    ("バイオ", "製薬・バイオ"),
    ("介護", "介護・福祉"),
    ("在宅", "介護・福祉"),
    ("福祉", "介護・福祉"),
    ("流通", "医療卸・流通"),
    ("卸", "医療卸・流通"),
    ("物流", "医療物流"),
    ("配送", "医療物流"),
    ("栄養", "ヘルスケア食品・栄養"),
    ("サプリ", "ヘルスケア食品・栄養"),
    ("出版", "医療メディア・出版"),
    ("メディア", "医療メディア・出版"),
    ("教育", "教育・研修"),
    ("研修", "教育・研修")
  ]

  /** `classify` of `improve_industry_v2.py`: first key of the map found in name and description. */
  function ClassifyV2(row: Row): string
  {
    LabelOr(FirstMatch(KeywordMapV2, NameDescText(row)), row)
  }

  /**
    The label is the value of the first key, in map order, occurring in the
    text; with no key occurring it is the current industry, or
    "その他医療関連" when that is empty.
  */
  lemma TableClassifySpec(t: Table, text: string, row: Row)
    ensures var r := LabelOr(FirstMatch(t, text), row);
      && ((forall j :: 0 <= j < |t| ==> !Contains(text, t[j].0)) ==> r == GetOr(row, "industry", Other))
      && ((exists j :: 0 <= j < |t| && Contains(text, t[j].0))
          ==> exists i :: 0 <= i < |t| && Contains(text, t[i].0) && r == t[i].1
                && forall j :: 0 <= j < i ==> !Contains(text, t[j].0))
  {
  }

  /** Re-running on the output is idempotent, as the industry is not part of the matched text. */
  lemma ClassifyV2Idempotent(row: Row)
    ensures ClassifyV2(Assign(row, "industry", ClassifyV2(row))) == ClassifyV2(row)
  {
    var row' := Assign(row, "industry", ClassifyV2(row));
    assert NameDescText(row') == NameDescText(row);
    assert LabelsNonEmpty(KeywordMapV2);
    FoundNonEmpty(KeywordMapV2, NameDescText(row));
    ReapplyKeepsLabel(FirstMatch(KeywordMapV2, NameDescText(row)), row);
  }

  /** The row loop of `improve_industry_v2.py`. */
  method ClassifyV2Rows(rows: seq<Row>) returns (out: seq<Row>)
    ensures |out| == |rows|
    ensures forall i :: 0 <= i < |rows| ==> out[i] == Assign(rows[i], "industry", ClassifyV2(rows[i]))
  {
    out := RelabelRows(rows, ClassifyV2);
  }

  // ------------------------------------------------------- improve_industry_v3.py

  const KeywordMapV3: Table := [
    ("医療it", "医療IT・医療データ"), ("システム", "医療IT・医療データ"), ("データ", "医療IT・医療データ"),
    ("dx", "医療IT・医療データ"), ("オンライン", "医療IT・医療データ"),
    ("機器", "医療機器メーカー"), ("検査", "医療機器メーカー"), ("装置", "医療機器メーカー"), ("画像", "医療機器メーカー"),
    ("製薬", "製薬・バイオ"), ("医薬", "製薬・バイオ"), ("バイオ", "製薬・バイオ"), ("薬", "製薬・バイオ"),
    ("介護", "介護・福祉"), ("在宅", "介護・福祉"), ("福祉", "介護・福祉"), ("看護", "介護・福祉"),
    ("流通", "医療卸・流通"), ("卸", "医療卸・流通"),
    ("物流", "医療物流"), ("配送", "医療物流"), ("倉庫", "医療物流"),
    ("栄養", "ヘルスケア食品・栄養"), ("サプリ", "ヘルスケア食品・栄養"), ("健康食品", "ヘルスケア食品・栄養"),
    ("出版", "医療メディア・出版"), ("メディア", "医療メディア・出版"), ("情報発信", "医療メディア・出版"),
    ("教育", "教育・研修"), ("研修", "教育・研修"), ("スクール", "教育・研修"),
    ("フィットネス", "フィットネス・健康サービス"), ("スポーツ", "フィットネス・健康サービス")
  ]

  /** Name, description, raw keywords and raw domains, space-joined and lower-cased. */
  function MetaText(row: Row): string
  {
    Lower(Join(" ", [Get(row, "company_name"), Get(row, "short_description"),
                     Get(row, "raw_medical_keywords"), Get(row, "raw_medical_domains")]))
  }

  /** `classify_row` of `improve_industry_v3.py`. */
  function ClassifyV3(row: Row): string
  {
    LabelOr(FirstMatch(KeywordMapV3, MetaText(row)), row)
  }

  /** "医療it" is the first key, so it decides whenever it occurs. */
  lemma ClassifyV3MedicalIT(row: Row)
    requires Contains(MetaText(row), "医療it")
    ensures ClassifyV3(row) == "医療IT・医療データ"
  {
    assert KeywordMapV3[0].0 == "医療it";
  }

  /** Re-running on the output is idempotent. */
  lemma ClassifyV3Idempotent(row: Row)
    ensures ClassifyV3(Assign(row, "industry", ClassifyV3(row))) == ClassifyV3(row)
  {
    var text := MetaText(row);
    MetaTextIgnoresIndustry(row, ClassifyV3(row));
    V3LabelsNonEmpty();
    TableReapply(KeywordMapV3, text, row);
  }

  lemma V3LabelsNonEmpty()
    ensures LabelsNonEmpty(KeywordMapV3)
  {
  }

  /** The industry column is not part of the matched text. */
  lemma MetaTextIgnoresIndustry(row: Row, industry: string)
    ensures MetaText(Assign(row, "industry", industry)) == MetaText(row)
  {
    var row' := Assign(row, "industry", industry);
    assert Get(row', "company_name") == Get(row, "company_name");
    assert Get(row', "short_description") == Get(row, "short_description");
    assert Get(row', "raw_medical_keywords") == Get(row, "raw_medical_keywords");
    assert Get(row', "raw_medical_domains") == Get(row, "raw_medical_domains");
  }

  /** The row loop of `improve_industry_v3.py`. */
  method ClassifyV3Rows(rows: seq<Row>) returns (out: seq<Row>)
    ensures |out| == |rows|
    ensures forall i :: 0 <= i < |rows| ==> out[i] == Assign(rows[i], "industry", ClassifyV3(rows[i]))
  {
    out := RelabelRows(rows, ClassifyV3);
  }

  // ------------------------------- relabelling only the "その他医療関連" rows

  /** A row whose stripped industry is the catch-all label. */
  predicate IsOther(row: Row)
  {
    Strip(Get(row, "industry")) == Other
  }

  /**
    `if industry == "その他医療関連": ... if sug: row["industry"] = sug`.
    Rows with another label, and rows without a suggestion, are left as
    they are; otherwise only the industry column changes, to the suggestion.
  */
  function RelabelOther(row: Row, sug: Option<string>): (r: Row)
    ensures !IsOther(row) || sug.None? || sug.value == "" ==> r == row
    ensures IsOther(row) && sug.Some? && sug.value != "" ==> Get(r, "industry") == sug.value
    ensures forall k :: k != "industry" ==> Get(r, k) == Get(row, k) && (k in r <==> k in row)
  {
    if IsOther(row) && sug.Some? && sug.value != "" then Assign(row, "industry", sug.value) else row
  }

  /**
    Relabelling by the first key of a table found in a text changes only an
    "その他医療関連" row, and then to the value of the first key found.
  */
  lemma RelabelFirstMatch(t: Table, text: string, row: Row)
    ensures var r := RelabelOther(row, FirstMatch(t, text));
      r != row ==> (IsOther(row)
        && exists i :: 0 <= i < |t| && Contains(text, t[i].0) && Get(r, "industry") == t[i].1
             && forall j :: 0 <= j < i ==> !Contains(text, t[j].0))
  {
  }

  // ---------------------------------------------- apply_keyword_map_extension.py

  const ExtMap: Table := [
    ("介護", "介護・福祉"), ("介護・福祉", "介護・福祉"), ("看護", "介護・福祉"), ("在宅", "介護・福祉"),
    ("検査", "医療機器メーカー"), ("診断", "医療機器メーカー"), ("画像診断", "医療機器メーカー"),
    ("医療機器", "医療機器メーカー"), ("装置", "医療機器メーカー"),
    ("医療データ", "医療IT・医療データ"), ("医療データ・ai", "医療IT・医療データ"),
    ("医療情報", "医療IT・医療データ"), ("医療saas", "医療IT・医療データ"),
    ("製薬", "製薬・バイオ"), ("医薬", "製薬・バイオ"), ("バイオ", "製薬・バイオ"), ("薬", "製薬・バイオ"),
    ("栄養", "ヘルスケア食品・栄養"), ("サプリ", "ヘルスケア食品・栄養"), ("健康食品", "ヘルスケア食品・栄養"),
    ("流通", "医療卸・流通"), ("卸", "医療卸・流通"),
    ("物流", "医療物流"), ("配送", "医療物流"), ("倉庫", "医療物流"),
    ("出版", "医療メディア・出版"), ("メディア", "医療メディア・出版"), ("情報発信", "医療メディア・出版"),
    ("教育", "教育・研修"), ("研修", "教育・研修"), ("スクール", "教育・研修"),
    ("フィットネス", "フィットネス・健康サービス"), ("スポーツ", "フィットネス・健康サービス")
  ]

  /** `find_token_suggestion`: the first map key found in the lower-cased text. */
  function FindTokenSuggestion(text: string): Option<string>
  {
    FirstMatch(ExtMap, Lower(text))
  }

  /** Description, raw keywords and raw domains, space-joined; the name is not read. */
  function ExtensionText(row: Row): string
  {
    Join(" ", [Get(row, "short_description"), Get(row, "raw_medical_keywords"), Get(row, "raw_medical_domains")])
  }

  /** One row of the extension loop. */
  function ExtendRow(row: Row): Row
  {
    RelabelOther(row, FindTokenSuggestion(ExtensionText(row)))
  }

  /**
    Only "その他医療関連" rows can change, and only their industry, to the
    value of the first map key found in the text.
  */
  lemma ExtendRowSpec(row: Row)
    ensures ExtendRow(row) != row ==> (IsOther(row)
      && exists i :: 0 <= i < |ExtMap| && Contains(Lower(ExtensionText(row)), ExtMap[i].0)
           && Get(ExtendRow(row), "industry") == ExtMap[i].1
           && forall j :: 0 <= j < i ==> !Contains(Lower(ExtensionText(row)), ExtMap[j].0))
  {
    RelabelFirstMatch(ExtMap, Lower(ExtensionText(row)), row);
  }

  /** The company name plays no part: changing it commutes with the relabelling. */
  lemma ExtendIgnoresName(row: Row, name: string)
    ensures ExtendRow(Assign(row, "company_name", name)) == Assign(ExtendRow(row), "company_name", name)
  {
    var row' := Assign(row, "company_name", name);
    assert |"company_name"| == 12;
    assert ExtensionText(row') == ExtensionText(row);
    RelabelCommutes(row, FindTokenSuggestion(ExtensionText(row)), "company_name", name);
  }

  /** Relabelling commutes with writing a column other than the industry. */
  lemma RelabelCommutes(row: Row, sug: Option<string>, k: string, v: string)
    requires k != "industry"
    ensures RelabelOther(Assign(row, k, v), sug) == Assign(RelabelOther(row, sug), k, v)
  {
    var row' := Assign(row, k, v);
    assert Get(row', "industry") == Get(row, "industry");
    if IsOther(row) && sug.Some? && sug.value != "" {
      assert Assign(row', "industry", sug.value) == Assign(Assign(row, "industry", sug.value), k, v);
    }
  }

  /** The row loop of `apply_keyword_map_extension.py`: every row written once, in input order. */
  method ExtendRows(rows: seq<Row>) returns (out: seq<Row>)
    ensures |out| == |rows|
    ensures forall i :: 0 <= i < |rows| ==> out[i] == ExtendRow(rows[i])
  {
    out := MapRows(rows, ExtendRow);
  }

  // --------------------------------------------- auto_apply_suggested_keywords.py

  /** A row of the suggestions file as a `smap` entry: stripped lower-cased token, stripped industry, both non-empty. */
  function SuggestionEntry(row: Row): Option<(string, string)>
  {
    var tok := Lower(Strip(Get(row, "token")));
    var ind := Strip(Get(row, "suggested_industry"));
    if tok != "" && ind != "" then Some((tok, ind)) else None
  }

  /** The entries of a suggestions file, one per row. */
  function Entries(sugRows: seq<Row>): (es: seq<Option<(string, string)>>)
    ensures |es| == |sugRows|
    ensures forall i :: 0 <= i < |sugRows| ==> es[i] == SuggestionEntry(sugRows[i])
  {
    seq(|sugRows|, i requires 0 <= i < |sugRows| => SuggestionEntry(sugRows[i]))
  }

  /** `smap` after reading the given suggestion rows. */
  function SuggestionMap(sugRows: seq<Row>): Dict<string>
  {
    FromEntries(Entries(sugRows))
  }

  /**
    The keys of `smap` are the tokens of the usable suggestion rows, and a
    repeated token takes the industry of the last row offering it.
  */
  lemma SuggestionMapLookup(sugRows: seq<Row>, tok: string)
    ensures var e := Lookup(SuggestionMap(sugRows), tok);
      && (e.Some? <==> exists i :: 0 <= i < |sugRows| && Offers(SuggestionEntry(sugRows[i]), tok))
      && (e.Some? ==> exists i :: (0 <= i < |sugRows| && SuggestionEntry(sugRows[i]) == Some((tok, e.value))
            && forall j :: i < j < |sugRows| ==> !Offers(SuggestionEntry(sugRows[j]), tok)))
  {
    var es := Entries(sugRows);
    FromEntriesKeys(es, tok);
    if Lookup(FromEntries(es), tok).Some? {
      FromEntriesLast(es, tok);
    }
  }

  /** The loop that fills `smap`. */
  method LoadSuggestions(sugRows: seq<Row>) returns (smap: Dict<string>)
    ensures smap == SuggestionMap(sugRows)
  {
    ghost var es := Entries(sugRows);
    smap := [];
    var i := 0;
    while i < |sugRows|
      invariant 0 <= i <= |sugRows|
      invariant smap == FromEntries(es[..i])
    {
      assert es[..i + 1][..i] == es[..i];
      var entry := SuggestionEntry(sugRows[i]);
      if entry.Some? {
        smap := Put(smap, entry.value.0, entry.value.1);
      }
      i := i + 1;
    }
    assert es[..|sugRows|] == es;
  }

  /** Raw keywords, raw domains and description, space-joined and lower-cased. */
  function SuggestionText(row: Row): string
  {
    Lower(Join(" ", [Get(row, "raw_medical_keywords"), Get(row, "raw_medical_domains"), Get(row, "short_description")]))
  }

  /** `find_suggestion`: the industry of the first `smap` token found, in insertion order. */
  function FindSuggestion(smap: Dict<string>, row: Row): Option<string>
  {
    FirstMatch(smap, SuggestionText(row))
  }

  /** One row of the auto-apply loop. */
  function AutoApplyRow(smap: Dict<string>, row: Row): Row
  {
    RelabelOther(row, FindSuggestion(smap, row))
  }

  /**
    Only "その他医療関連" rows change, to the industry of the first `smap`
    token found; with no suggestions at all every row passes unchanged.
  */
  lemma AutoApplyRowSpec(smap: Dict<string>, row: Row)
    ensures smap == [] ==> AutoApplyRow(smap, row) == row
    ensures AutoApplyRow(smap, row) != row ==> (IsOther(row)
      && exists i :: 0 <= i < |smap| && Contains(SuggestionText(row), smap[i].0)
           && Get(AutoApplyRow(smap, row), "industry") == smap[i].1
           && forall j :: 0 <= j < i ==> !Contains(SuggestionText(row), smap[j].0))
  {
    RelabelFirstMatch(smap, SuggestionText(row), row);
  }

  /** The body of the auto-apply loop for one row. */
  method AutoApplyOne(smap: Dict<string>, row: Row) returns (r: Row)
    ensures r == AutoApplyRow(smap, row)
  {
    r := row;
    if Strip(Get(row, "industry")) == Other {
      var sug := FindFirst(smap, SuggestionText(row));
      if sug.Some? && sug.value != "" {
        r := row["industry" := sug.value];
      }
    }
  }

  /** The row loop of `auto_apply_suggested_keywords.py`: every row written once, in input order. */
  method AutoApplyRows(smap: Dict<string>, rows: seq<Row>) returns (out: seq<Row>)
    ensures |out| == |rows|
    ensures forall i :: 0 <= i < |rows| ==> out[i] == AutoApplyRow(smap, rows[i])
  {
    out := [];
    var i := 0;
    while i < |rows|
      invariant 0 <= i <= |rows|
      invariant |out| == i
      invariant forall j :: 0 <= j < i ==> out[j] == AutoApplyRow(smap, rows[j])
    {
      var row := AutoApplyOne(smap, rows[i]);
      out := out + [row];
      i := i + 1;
    }
  }
}
