/**
  Short descriptions: a description shorter than 30 characters is replaced
  by its industry's template when one exists, and one longer than 45 is cut
  to 44 characters followed by "…".
*/
module Descriptions {
  import opened Base
  import opened Text
  import opened Dicts

  const Ellipsis: char := '…'

  /** `s[:n]` for any integer `n`, negative `n` counting from the end as Python does. */
  function SliceTo(s: string, n: int): (r: string)
    ensures r <= s
    ensures 0 <= n <= |s| ==> |r| == n
  {
    if n >= |s| then s
    else if n >= 0 then s[..n]
    else if |s| + n >= 0 then s[..|s| + n]
    else []
  }

  /** `shorten(text, max_len)`: unchanged when short enough, else cut to `max_len - 1` characters and "…". */
  function Shorten(text: string, maxLen: int): (r: string)
    ensures |text| <= maxLen ==> r == text
    ensures |text| > maxLen >= 1 ==> |r| == maxLen && r[..maxLen - 1] == text[..maxLen - 1] && r[maxLen - 1] == Ellipsis
  {
    if |text| <= maxLen then text else SliceTo(text, maxLen - 1) + [Ellipsis]
  }

  /** With a positive limit, shortening is idempotent and never exceeds the limit. */
  lemma ShortenIdempotent(text: string, maxLen: int)
    requires maxLen >= 1
    ensures |Shorten(text, maxLen)| <= maxLen
    ensures Shorten(Shorten(text, maxLen), maxLen) == Shorten(text, maxLen)
  {
  }

  /** `sd[:44] + "…"` when longer than 45: the 45-character limit of `Shorten`. */
  function Truncate45(sd: string): (r: string)
    ensures r == Shorten(sd, 45)
    ensures |r| <= 45
  {
    if |sd| > 45 then sd[..44] + [Ellipsis] else sd
  }

  /** The templates of `finalize_templates_and_scores.py`, one per industry label. */
  const FinalTemplates: Dict<string> := [
    ("医療機器メーカー", "医療機器の開発・製造を行い、医療現場で使われる製品を提供しています。"),
    ("製薬・バイオ", "医薬品やバイオ製品の研究開発・製造を行い、治療に用いられる薬を提供しています。"),
    ("医療IT・医療データ", "医療×ITでシステムやデータサービスを提供し、現場の効率化を支援します。"),
    ("介護・福祉", "介護・福祉サービスを提供し、高齢者支援や在宅ケアを行っています。"),
    ("医療卸・流通", "医薬品や医療機器の流通を担い、医療機関への安定供給を支えます。"),
    ("医療物流", "医薬品や医療機器の輸送・保管を行い、物流インフラを提供します。"),
    ("ヘルスケア食品・栄養", "健康食品や栄養製品を展開し、日常の健康づくりを支援します。"),
    ("医療メディア・出版", "医療分野の情報発信や出版を行い、学びの基盤を提供します。"),
    ("教育・研修", "医療・看護分野の教育や研修サービスを提供しています。"),
    ("フィットネス・健康サービス", "運動や健康サービスを提供し、生活習慣改善を支援します。")
  ]

  /** The templates of `refine_templates_v2.py`: no fitness entry, and a different IT sentence. */
  const RefineTemplates: Dict<string> := [
    ("医療機器メーカー", "医療機器の開発・製造を行い、医療現場で使われる製品を提供しています。"),
    ("製薬・バイオ", "医薬品やバイオ製品の研究開発・製造を行い、治療に用いられる薬を提供しています。"),
    ("医療IT・医療データ", "医療×ITでシステムやデータサービスを提供し、現場の業務効率化を支援します。"),
    ("介護・福祉", "介護・福祉サービスを提供し、高齢者支援や在宅ケアを行っています。"),
    ("医療卸・流通", "医薬品や医療機器の流通を担い、医療機関への安定供給を支えます。"),
    ("医療物流", "医薬品や医療機器の輸送・保管を行い、物流インフラを提供します。"),
    ("ヘルスケア食品・栄養", "健康食品や栄養製品を展開し、日常の健康づくりを支援します。"),
    ("医療メディア・出版", "医療分野の情報発信や出版を行い、学びの基盤を提供します。"),
    ("教育・研修", "医療・看護分野の教育や研修サービスを提供しています。")
  ]

  /** The four templates of the pipeline scripts. */
  const PipelineTemplates: Dict<string> := [
    ("医療機器メーカー", "医療機器の開発・製造を行い、医療現場で使われる製品を提供しています。"),
    ("製薬・バイオ", "医薬品やバイオ製品の研究開発・製造を行い、治療に用いられる薬を提供しています。"),
    ("医療IT・医療データ", "医療×ITでシステムやデータサービスを提供し、現場の効率化を支援します。"),
    ("介護・福祉", "介護・福祉サービスを提供し、高齢者支援や在宅ケアを行っています。")
  ]

  /**
    Strip, replace a text shorter than 30 by the industry's template when one
    exists, then cut to 45 (`fit_text`, and the description step of the
    final scoring loop).
  */
  function FitText(text: string, industry: string, templates: Dict<string>): (r: string)
    ensures |r| <= 45
  {
    var t := Strip(text);
    var filled := match Lookup(templates, industry)
      case Some(tpl) => if |t| < 30 && tpl != "" then tpl else t
      case None => t;
    Truncate45(filled)
  }

  /** The cases of `FitText`: a template, the stripped text, or the stripped text cut short. */
  lemma FitTextCases(text: string, industry: string, templates: Dict<string>)
    ensures var t, tpl := Strip(text), Lookup(templates, industry);
      && (|t| < 30 && tpl.Some? && tpl.value != "" ==> FitText(text, industry, templates) == Shorten(tpl.value, 45))
      && (|t| < 30 && (tpl.None? || tpl.value == "") ==> FitText(text, industry, templates) == t)
      && (30 <= |t| <= 45 ==> FitText(text, industry, templates) == t)
      && (|t| > 45 ==> FitText(text, industry, templates) == t[..44] + [Ellipsis])
  {
  }

  /**
    Templates of at most 45 characters that neither start nor end with
    whitespace, as in all three tables (several are shorter than 30).
  */
  predicate WellFormed(templates: Dict<string>)
  {
    forall i :: 0 <= i < |templates| ==> WellFormedText(templates[i].1)
  }

  predicate WellFormedText(t: string)
  {
    0 < |t| <= 45 && !IsSpace(t[0]) && !IsSpace(t[|t| - 1])
  }

  /** The templates of the finalising script are well formed. */
  lemma FinalTemplatesWellFormed()
    ensures WellFormed(FinalTemplates)
  {
  }

  /** The templates of the refining script are well formed. */
  lemma RefineTemplatesWellFormed()
    ensures WellFormed(RefineTemplates)
  {
  }

  /** The templates of the pipelines are well formed. */
  lemma PipelineTemplatesWellFormed()
    ensures WellFormed(PipelineTemplates)
  {
  }

  /** With well-formed templates, refitting a fitted description changes nothing. */
  lemma {:induction false} FitTextIdempotent(text: string, industry: string, templates: Dict<string>)
    requires WellFormed(templates)
    ensures FitText(FitText(text, industry, templates), industry, templates) == FitText(text, industry, templates)
  {
    var t := Strip(text);
    var r := FitText(text, industry, templates);
    StripIdempotent(text);
    var found := Lookup(templates, industry);
    if |t| < 30 && found.Some? && found.value != "" {
      var i := IndexOf(templates, industry).value;
      assert WellFormedText(templates[i].1);
      assert r == found.value;
      StripEnds(r);
    } else if |t| > 45 {
      assert r == t[..44] + [Ellipsis];
      assert !IsSpace(r[0]) by { assert r[0] == t[0]; }
      assert !IsSpace(r[|r| - 1]);
      StripEnds(r);
    } else {
      assert r == t;
    }
  }

  /** A text that does not start or end with whitespace is its own stripped form. */
  lemma StripEnds(s: string)
    requires s != [] && !IsSpace(s[0]) && !IsSpace(s[|s| - 1])
    ensures Strip(s) == s
  {
  }

  /**
    The pipelines' description step: the text (not stripped, not cut)
    shorter than 30 is replaced when the industry has a template. The form
    `not sd or len(sd) < 30` of two of the pipelines is the same test.
  */
  function PipelineFill(sd: string, industry: string): (r: string)
    ensures (sd == "" || |sd| < 30) == (|sd| < 30)
    ensures |sd| < 30 && Lookup(PipelineTemplates, industry).Some? ==> r == Lookup(PipelineTemplates, industry).value
    ensures !(|sd| < 30 && Lookup(PipelineTemplates, industry).Some?) ==> r == sd
  {
    match Lookup(PipelineTemplates, industry)
    case Some(tpl) => if |sd| < 30 then tpl else sd
    case None => sd
  }
}
