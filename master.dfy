/**
  Building the company master from the raw crawl: rows are de-duplicated by
  stripped company name (first row wins), numbered from 1, given an industry
  inferred from their keywords and domains, a sentence for that industry,
  and a relevance score.
*/
module Master {
  import opened Base
  import opened Text
  import opened Dicts
  import opened Keywords

  /** The first rule of the cascade. */
  const DeviceRule: (seq<string>, string) := (["医療機器", "検査", "画像"], "医療機器メーカー")

  /** The `infer_industry` cascade; matching is case-sensitive ("AI", "DX"). */
  const MasterRules: Rules := [
    DeviceRule,
    (["製薬", "医薬", "バイオ"], "製薬・バイオ"),
    (["オンライン", "AI", "DX", "データ"], "医療IT・医療データ"),
    (["介護", "福祉", "在宅"], "介護・福祉"),
    (["卸", "流通"], "医療卸・流通"),
    (["物流", "配送"], "医療物流"),
    (["建設", "施設"], "医療施設・建設"),
    (["衛生", "感染"], "衛生・感染対策"),
    (["栄養", "健康食品", "サプリ"], "ヘルスケア食品・栄養"),
    (["フィットネス", "スポーツ"], "フィットネス・健康サービス"),
    (["出版", "メディア", "ニュース"], "医療メディア・出版"),
    (["教育", "研修"], "教育・研修")
  ]

  /** The keywords with ASCII and ideographic spaces removed, followed by the stripped domains. */
  function InferText(row: Row): string
  {
    RemoveChar(RemoveChar(Get(row, "medical_keywords"), ' '), '　') + Strip(Get(row, "medical_domains"))
  }

  /** `infer_industry`: the first rule that fires, else the stripped domain, else "その他医療関連". */
  function InferIndustry(row: Row): string
  {
    InferFrom(InferText(row), Strip(Get(row, "medical_domains")))
  }

  /** The decision of `infer_industry` on the prepared text and the stripped domain. */
  function InferFrom(text: string, domain: string): string
  {
    match Cascade(MasterRules, text)
    case Some(l) => l
    case None => if domain != "" then domain else Other
  }

  /**
    The result is never empty: the label of a rule that fires (the first
    one), or, when none fires, the domain if there is one, else "その他医療関連".
  */
  lemma {:induction false} InferFromRange(text: string, domain: string)
    ensures InferFrom(text, domain) != ""
    ensures (exists i :: 0 <= i < |MasterRules| && Fires(MasterRules[i].0, text))
      ==> exists i :: 0 <= i < |MasterRules| && InferFrom(text, domain) == MasterRules[i].1
    ensures (forall i :: 0 <= i < |MasterRules| ==> !Fires(MasterRules[i].0, text))
      ==> InferFrom(text, domain) == (if domain != "" then domain else Other)
  {
    var c := Cascade(MasterRules, text);
    CascadeSpec(MasterRules, text);
    LabelsNonEmpty();
    if c.Some? {
      var i :| 0 <= i < |MasterRules| && Fires(MasterRules[i].0, text) && c.value == MasterRules[i].1
        && forall j :: 0 <= j < i ==> !Fires(MasterRules[j].0, text);
      assert InferFrom(text, domain) == MasterRules[i].1;
    }
  }

  lemma LabelsNonEmpty()
    ensures forall i :: 0 <= i < |MasterRules| ==> MasterRules[i].1 != ""
  {
  }

  /** The first rule wins: keywords naming both 検査 and 介護 give the medical-device label. */
  lemma InferFirstRuleWins(domain: string)
    ensures InferFrom("検査;介護", domain) == "医療機器メーカー"
  {
    var text := "検査;介護";
    assert "検査" <= text;
    assert Fires(DeviceRule.0, text) by {
      assert "検査" in DeviceRule.0;
    }
    assert MasterRules[0] == DeviceRule;
  }

  /** The short sentence for each of the twelve inferred industries. */
  const Sentences: Dict<string> := [
    ("医療機器メーカー", "医療機器の開発・製造を行い、医療現場で使われる製品を提供しています。"),
    ("製薬・バイオ", "医薬品やバイオ製品の研究開発・製造を行い、治療に用いられる薬を提供しています。"),
    ("医療IT・医療データ", "医療×IT領域でシステムやデータサービスを提供し、医療現場の業務効率化を支援しています。"),
    ("介護・福祉", "介護・福祉サービスを提供し、高齢者支援や在宅ケアの現場に関わる事業を展開しています。"),
    ("医療卸・流通", "医薬品や医療機器の流通を担い、医療機関への安定供給を支える卸企業です。"),
    ("医療物流", "医薬品や医療機器の輸送・保管を行い、医療機関を支える物流インフラを提供しています。"),
    ("医療施設・建設", "医療施設の建設・整備に関わり、病院やクリニックのインフラを支える企業です。"),
    ("衛生・感染対策", "衛生用品や感染対策製品を扱い、医療現場や生活の衛生管理を支える製品を提供しています。"),
    ("ヘルスケア食品・栄養", "健康食品や栄養関連製品を展開し、日常生活からの健康づくりを支援しています。"),
    ("フィットネス・健康サービス", "フィットネスや運動サービスを提供し、生活者の健康維持や体力向上を支援しています。"),
    ("医療メディア・出版", "医療・看護・介護分野の情報発信や出版を行い、医療者向けの学習基盤を提供しています。"),
    ("教育・研修", "医療・看護分野の教育や研修サービスを提供し、専門職の学びを支援しています。")
  ]

  const DefaultSentence := "医療・ヘルスケア分野に関連する事業を展開し、医療や生活者の健康を支援する企業です。"

  /** `build_short_description`: the industry's own sentence, or the default for any other value. */
  function ShortDescription(industry: string): string
  {
    SentenceIn(Sentences, industry)
  }

  /** The first sentence of `table` filed under `industry`, else the default. */
  function SentenceIn(table: Dict<string>, industry: string): string
  {
    if table == [] then DefaultSentence
    else if table[0].0 == industry then table[0].1
    else SentenceIn(table[1..], industry)
  }

  /** The sentence found is the one of the first entry filed under the industry; none gives the default. */
  lemma {:induction false} SentenceInSpec(table: Dict<string>, industry: string, i: nat)
    requires i <= |table|
    requires forall j :: 0 <= j < i ==> table[j].0 != industry
    ensures i < |table| && table[i].0 == industry ==> SentenceIn(table, industry) == table[i].1
    ensures i == |table| ==> SentenceIn(table, industry) == DefaultSentence
  {
    if i > 0 {
      assert forall j :: 0 <= j < i - 1 ==> table[1..][j] == table[j + 1];
      SentenceInSpec(table[1..], industry, i - 1);
    }
  }

  /** Each of the twelve inferred industries gets its own sentence; any other value gets the default. */
  lemma ShortDescriptionCases(industry: string)
    ensures forall i :: 0 <= i < |MasterRules| ==> ShortDescription(MasterRules[i].1) == Sentences[i].1
    ensures (forall i :: 0 <= i < |MasterRules| ==> MasterRules[i].1 != industry) ==> ShortDescription(industry) == DefaultSentence
  {
    SentencesAligned();
    SentencesDistinct();
    forall i | 0 <= i < |MasterRules| ensures ShortDescription(MasterRules[i].1) == Sentences[i].1 {
      SentenceInSpec(Sentences, MasterRules[i].1, i);
    }
    if forall i :: 0 <= i < |MasterRules| ==> MasterRules[i].1 != industry {
      SentenceInSpec(Sentences, industry, |Sentences|);
    }
  }

  /** The sentence table lists the industries in the order of the rules. */
  lemma SentencesAligned()
    ensures |Sentences| == |MasterRules|
    ensures forall i :: 0 <= i < |MasterRules| ==> MasterRules[i].1 == Sentences[i].0
  {
  }

  /** No industry has two sentences. */
  lemma SentencesDistinct()
    ensures DistinctKeys(Sentences)
  {
  }

  /** The stripped company name, the de-duplication key. */
  function NameOf(row: Row): string
  {
    Strip(Get(row, "company_name"))
  }

  /** A name that is kept: non-empty and not a repeated header line. */
  predicate Kept(name: string)
  {
    name != "" && Lower(name) != "company_name"
  }

  /** The stripped names of all rows. */
  function Names(rows: seq<Row>): (names: seq<string>)
    ensures |names| == |rows|
  {
    seq(|rows|, i requires 0 <= i < |rows| => NameOf(rows[i]))
  }

  /**
    The `unique` dictionary: each kept name maps to the first row carrying
    it, in first-occurrence order; `names[i]` is the name of `rows[i]`.
  */
  function DedupNamed(rows: seq<Row>, names: seq<string>): (d: Dict<Row>)
    requires |names| == |rows|
    ensures DistinctKeys(d)
    ensures forall i :: 0 <= i < |d| ==> Kept(d[i].0) && d[i].0 in names
  {
    if rows == [] then []
    else
      var n := |rows| - 1;
      var prev := DedupNamed(rows[..n], names[..n]);
      if !Kept(names[n]) || names[n] in Keys(prev) then prev
      else
        assert forall i :: 0 <= i < |prev| ==> prev[i].0 != names[n];
        prev + [(names[n], rows[n])]
  }

  /** De-duplication of the raw rows by stripped company name. */
  function Dedup(rows: seq<Row>): Dict<Row>
  {
    DedupNamed(rows, Names(rows))
  }

  /** A kept name is found exactly at the first row that has it. */
  lemma {:induction false} DedupFirst(rows: seq<Row>, names: seq<string>, j: nat)
    requires |names| == |rows| && j < |rows| && Kept(names[j])
    requires forall i :: 0 <= i < j ==> names[i] != names[j]
    ensures Lookup(DedupNamed(rows, names), names[j]) == Some(rows[j])
  {
    var n := |rows| - 1;
    var prev := DedupNamed(rows[..n], names[..n]);
    var name := names[j];
    if j < n {
      assert names[..n][j] == name && rows[..n][j] == rows[j];
      DedupFirst(rows[..n], names[..n], j);
      if Kept(names[n]) && names[n] !in Keys(prev) {
        LookupAppended(prev, names[n], rows[n]);
      }
    } else {
      assert name !in names[..n];
      LookupAppended(prev, name, rows[n]);
    }
  }

  /** The dictionary holds exactly the kept names that some row carries. */
  lemma {:induction false} DedupKeys(rows: seq<Row>, names: seq<string>, name: string)
    requires |names| == |rows|
    ensures name in Keys(DedupNamed(rows, names)) <==> Kept(name) && name in names
  {
    if name in names && Kept(name) {
      var j :| 0 <= j < |names| && names[j] == name;
      while exists i :: 0 <= i < j && names[i] == name
        invariant 0 <= j < |names| && names[j] == name
        decreases j
      {
        var i :| 0 <= i < j && names[i] == name;
        j := i;
      }
      DedupFirst(rows, names, j);
    }
  }

  /** One more row: its name is added when kept and new. */
  lemma DedupStep(rows: seq<Row>, names: seq<string>, i: nat)
    requires |names| == |rows| && i < |rows|
    ensures var prev := DedupNamed(rows[..i], names[..i]);
      DedupNamed(rows[..i + 1], names[..i + 1])
      == if Kept(names[i]) && names[i] !in Keys(prev) then prev + [(names[i], rows[i])] else prev
  {
    assert rows[..i + 1][..i] == rows[..i] && names[..i + 1][..i] == names[..i];
    assert rows[..i + 1][i] == rows[i] && names[..i + 1][i] == names[i];
  }

  /** The loop filling the `OrderedDict`: skip unkept names and names already present. */
  method DedupRows(rows: seq<Row>) returns (unique: Dict<Row>)
    ensures unique == Dedup(rows)
  {
    ghost var names := Names(rows);
    unique := [];
    var i := 0;
    while i < |rows|
      invariant 0 <= i <= |rows|
      invariant unique == DedupNamed(rows[..i], names[..i])
    {
      DedupStep(rows, names, i);
      var name := NameOf(rows[i]);
      assert name == names[i];
      if Kept(name) && name !in Keys(unique) {
        unique := unique + [(name, rows[i])];
      }
      i := i + 1;
    }
    assert rows[..|rows|] == rows && names[..|rows|] == names;
  }

  /** `total_medical_score`, else `medical_keyword_count`, else "0", as an integer; 0 when not one. */
  function MasterScore(row: Row): int
  {
    IntOrZero(GetOr(row, "total_medical_score", GetOr(row, "medical_keyword_count", "0")))
  }

  /** The fallbacks of the score: an empty total defers to the keyword count. */
  lemma MasterScoreFallback(row: Row)
    ensures Get(row, "total_medical_score") != "" ==> MasterScore(row) == IntOrZero(row["total_medical_score"])
    ensures Get(row, "total_medical_score") == "" && Get(row, "medical_keyword_count") != ""
      ==> MasterScore(row) == IntOrZero(row["medical_keyword_count"])
    ensures Get(row, "total_medical_score") == "" && Get(row, "medical_keyword_count") == "" ==> MasterScore(row) == 0
  {
    ParseIntToString(0);
  }

  /**
    One line of the master file. Its `short_description` column is
    `ShortDescription(industry)`, a function of the industry alone. The
    columns `side_job_fit_score`, `career_shift_fit_score`,
    `hybrid_fit_score`, `work_style`, `risk_level`, `learning_growth_score`,
    `target_background` and `note_for_coach` are written empty and are
    filled by the scoring steps.
  */
  datatype Company = Company(id: nat, name: string, relevance: int, industry: string)
  {
    function ShortDescriptionColumn(): string
    {
      ShortDescription(industry)
    }
  }

  /** The master line for the `id`-th unique company. */
  function MasterRecord(id: nat, name: string, row: Row): (c: Company)
    ensures c.id == id && c.name == name
  {
    Company(id, name, MasterScore(row), InferIndustry(row))
  }

  /** The lines `build(i, name, row)` for `enumerate(unique.items(), start=1)`. */
  function Lines(unique: Dict<Row>, build: (nat, string, Row) -> Company): (out: seq<Company>)
    ensures |out| == |unique|
  {
    if unique == [] then []
    else
      var n := |unique| - 1;
      Lines(unique[..n], build) + [build(n + 1, unique[n].0, unique[n].1)]
  }

  /** Line `i` is built from the `i`-th entry with number `i + 1`. */
  lemma {:induction false} LinesAt(unique: Dict<Row>, build: (nat, string, Row) -> Company, i: nat)
    requires i < |unique|
    ensures Lines(unique, build)[i] == build(i + 1, unique[i].0, unique[i].1)
  {
    var n := |unique| - 1;
    if i < n {
      assert unique[..n][i] == unique[i];
      LinesAt(unique[..n], build, i);
    }
  }

  /** The master file's lines. */
  function MasterLines(unique: Dict<Row>): seq<Company>
  {
    Lines(unique, MasterRecord)
  }

  /**
    Line `i` of the master is the record of the `i`-th unique company: it
    carries id `i + 1` and that company's name, so ids and names are distinct.
  */
  lemma MasterLinesNumbered(unique: Dict<Row>)
    requires DistinctKeys(unique)
    ensures var out := MasterLines(unique);
      && |out| == |unique|
      && (forall i :: 0 <= i < |out| ==> out[i] == MasterRecord(i + 1, unique[i].0, unique[i].1))
      && (forall i :: 0 <= i < |out| ==> out[i].id == i + 1 && out[i].name == unique[i].0)
      && (forall i, j :: 0 <= i < j < |out| ==> out[i].id != out[j].id && out[i].name != out[j].name)
  {
    forall i | 0 <= i < |unique| ensures MasterLines(unique)[i] == MasterRecord(i + 1, unique[i].0, unique[i].1) {
      LinesAt(unique, MasterRecord, i);
    }
  }

  /** The writing loop: one line per unique company, in order. */
  method WriteMaster(unique: Dict<Row>) returns (out: seq<Company>)
    ensures out == MasterLines(unique)
  {
    out := [];
    var i := 0;
    while i < |unique|
      invariant 0 <= i <= |unique|
      invariant out == MasterLines(unique[..i])
    {
      assert unique[..i + 1][..i] == unique[..i];
      out := out + [MasterRecord(i + 1, unique[i].0, unique[i].1)];
      i := i + 1;
    }
    assert unique[..|unique|] == unique;
  }

  /** Every line of the master names a distinct kept company and is found from its first row. */
  lemma MasterNames(rows: seq<Row>, i: nat)
    requires i < |Dedup(rows)|
    ensures var d := Dedup(rows);
      Kept(d[i].0) && Lookup(d, d[i].0) == Some(d[i].1)
  {
    LookupAt(Dedup(rows), i);
  }
}
