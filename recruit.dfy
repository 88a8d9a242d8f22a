/**
  Recruit-page text scoring of `legacy/recruit_parser.py`: keyword hits
  and a bucketed medical score, the medical domains with the most hits,
  the de-duplicated role keywords, and the weighted total. Matching is
  Python's case-sensitive `kw in text`.
*/
module RecruitParser {
  import opened Base
  import opened Text
  import opened Keywords
  import opened Dicts
  import Ranking

  // ------------------------------------------------------------ keywords

  /** `MEDICAL_KEYWORDS`. */
  const MedicalKeywords: seq<string> := [
    "医療", "医療現場", "医療従事者", "医療機関", "医療知識", "医療経験",
    "臨床", "臨床現場", "患者", "病院", "クリニック", "看護", "介護", "福祉",
    "ヘルスケア", "メディカル",
    "医療DX", "医療データ", "医療情報", "電子カルテ", "オンライン診療",
    "医療システム", "医療ソリューション", "医療IT", "医療SaaS",
    "医療機器", "デバイス", "手術", "検査", "診断", "画像診断", "バイタル",
    "臨床工学", "医療材料",
    "医療現場の課題", "医療知識を活かす", "医療経験を歓迎",
    "医療従事者とのコミュニケーション", "医療機関への提案",
    "医療現場の理解", "医療業界経験者歓迎"
  ]

  /** `[kw for kw in words if kw in text]`. */
  function Found(words: seq<string>, text: string): (r: seq<string>)
    ensures |r| <= |words|
  {
    if words == [] then []
    else (if Contains(text, words[0]) then [words[0]] else []) + Found(words[1..], text)
  }

  /** A word is found exactly when it is in the list and the text contains it. */
  lemma {:induction false} FoundMember(words: seq<string>, text: string, x: string)
    ensures x in Found(words, text) <==> x in words && Contains(text, x)
  {
    if words != [] {
      FoundMember(words[1..], text, x);
      assert words == [words[0]] + words[1..];
    }
  }

  /** The words found keep their order in the list: `Found` picks a subsequence. */
  lemma {:induction false} FoundOrder(words: seq<string>, text: string, a: nat, b: nat) returns (i: nat, j: nat)
    requires a < b < |Found(words, text)|
    ensures i < j < |words| && words[i] == Found(words, text)[a] && words[j] == Found(words, text)[b]
  {
    var r := Found(words, text);
    var rest := Found(words[1..], text);
    if Contains(text, words[0]) {
      assert r == [words[0]] + rest;
      if a == 0 {
        j := FoundFrom(words[1..], text, b - 1);
        i, j := 0, j + 1;
      } else {
        i, j := FoundOrder(words[1..], text, a - 1, b - 1);
        i, j := i + 1, j + 1;
      }
    } else {
      assert r == rest;
      i, j := FoundOrder(words[1..], text, a, b);
      i, j := i + 1, j + 1;
    }
  }

  /** Where a found word sits in the list. */
  lemma FoundFrom(words: seq<string>, text: string, a: nat) returns (i: nat)
    requires a < |Found(words, text)|
    ensures i < |words| && words[i] == Found(words, text)[a]
  {
    var x := Found(words, text)[a];
    FoundMember(words, text, x);
    i :| 0 <= i < |words| && words[i] == x;
  }

  /** The bucket of the hit count: 1 up to one hit, then 2, 3, 4 and 5 from 2, 5, 9 and 15 hits. */
  function MedicalScoreOf(count: nat): nat
  {
    if count <= 1 then 1
    else if count <= 4 then 2
    else if count <= 8 then 3
    else if count <= 14 then 4
    else 5
  }

  /** What `calculate_medical_score(text)` returns. */
  datatype MedicalScore = MedicalScore(hits: seq<string>, count: nat, score: nat)

  /** `calculate_medical_score(text)`. */
  function CalculateMedicalScore(text: string): MedicalScore
  {
    var hits := Found(MedicalKeywords, text);
    MedicalScore(hits, |hits|, MedicalScoreOf(|hits|))
  }

  /**
    The hits are the listed keywords the text contains, counted one each;
    the score lies in 1..5, never falls as the count grows, and rises
    exactly at 2, 5, 9 and 15 hits.
  */
  lemma MedicalScoreSpec(text: string, x: string, other: nat)
    ensures var m := CalculateMedicalScore(text);
      && (x in m.hits <==> x in MedicalKeywords && Contains(text, x))
      && m.count == |m.hits|
      && 1 <= m.score <= 5
      && (m.count <= other ==> m.score <= MedicalScoreOf(other))
      && (m.score == 1 <==> m.count <= 1)
      && (m.score == 2 <==> 2 <= m.count <= 4)
      && (m.score == 3 <==> 5 <= m.count <= 8)
      && (m.score == 4 <==> 9 <= m.count <= 14)
      && (m.score == 5 <==> m.count >= 15)
  {
    FoundMember(MedicalKeywords, text, x);
  }

  // ------------------------------------------------------------- domains

  /** `MEDICAL_DOMAINS`, in insertion order. */
  const MedicalDomains: seq<(string, seq<string>)> := [
    ("医療機器メーカー", ["医療機器", "デバイス", "手術", "検査", "診断", "画像診断",
                         "バイタル", "臨床工学", "医療材料", "手術支援", "モニタリング"]),
    ("医療SaaS・医療DX", ["医療DX", "電子カルテ", "オンライン診療", "医療システム",
                          "医療ソリューション", "医療IT", "医療SaaS", "医療データ",
                          "医療情報", "クラウド", "プラットフォーム"]),
    ("介護・福祉", ["介護", "福祉", "高齢者", "施設", "ケア", "介護支援", "介護サービス", "介護現場"]),
    ("臨床開発（CRO）", ["治験", "臨床試験", "CRA", "CRC", "GCP", "医薬品開発", "臨床研究"]),
    ("医療コンサル", ["コンサル", "課題解決", "医療経営", "医療機関支援", "医療戦略", "業務改善"]),
    ("医療データ・AI", ["医療データ", "AI", "機械学習", "データ分析", "医療統計", "予測モデル"]),
    ("医療人材・医療メディア", ["医療人材", "医療メディア", "求人", "キャリア", "医療情報発信"])
  ]

  /** The domain names of a table. */
  function Names(ds: seq<(string, seq<string>)>): (ns: seq<string>)
    ensures |ns| == |ds| && forall i :: 0 <= i < |ds| ==> ns[i] == ds[i].0
  {
    seq(|ds|, i requires 0 <= i < |ds| => ds[i].0)
  }

  /** No name occurs twice. */
  predicate Distinct(ns: seq<string>)
  {
    forall i, j :: 0 <= i < j < |ns| ==> ns[i] != ns[j]
  }

  /** The seven domain names are different from each other. */
  lemma DomainNamesDistinct()
    ensures Distinct(Names(MedicalDomains))
  {
    var ns := Names(MedicalDomains);
    assert |ns[0]| == 8 && |ns[1]| == 11 && |ns[2]| == 5 && |ns[3]| == 9;
    assert |ns[4]| == 6 && |ns[5]| == 8 && |ns[6]| == 11;
    assert ns[0][2] != ns[5][2] && ns[1][2] != ns[6][2];
  }

  /** The hit count of one domain: its keywords the text contains. */
  function DomainCount(d: (string, seq<string>), text: string): nat
  {
    |Found(d.1, text)|
  }

  /**
    `domain_scores` after the loop over the table: the domains with at
    least one hit, in table order, with their counts.
  */
  function DomainScores(ds: seq<(string, seq<string>)>, text: string): (scores: Dict<nat>)
    ensures |scores| <= |ds|
    ensures forall a :: 0 <= a < |scores| ==> scores[a].1 > 0
  {
    if ds == [] then []
    else
      var c := DomainCount(ds[0], text);
      (if c > 0 then [(ds[0].0, c)] else []) + DomainScores(ds[1..], text)
  }

  /**
    Every entry of the scores is a table domain with its count, and the
    entries keep table order.
  */
  lemma {:induction false} DomainScoresFrom(ds: seq<(string, seq<string>)>, text: string, a: nat, b: nat) returns (i: nat, j: nat)
    requires a <= b < |DomainScores(ds, text)|
    ensures i <= j < |ds| && (a < b ==> i < j)
    ensures DomainScores(ds, text)[a] == (ds[i].0, DomainCount(ds[i], text))
    ensures DomainScores(ds, text)[b] == (ds[j].0, DomainCount(ds[j], text))
  {
    var s := DomainScores(ds, text);
    var rest := DomainScores(ds[1..], text);
    if DomainCount(ds[0], text) > 0 {
      assert s == [(ds[0].0, DomainCount(ds[0], text))] + rest;
      if a == 0 && b == 0 {
        i, j := 0, 0;
      } else if a == 0 {
        var _, j' := DomainScoresFrom(ds[1..], text, b - 1, b - 1);
        i, j := 0, j' + 1;
      } else {
        i, j := DomainScoresFrom(ds[1..], text, a - 1, b - 1);
        i, j := i + 1, j + 1;
      }
    } else {
      assert s == rest;
      i, j := DomainScoresFrom(ds[1..], text, a, b);
      i, j := i + 1, j + 1;
    }
  }

  /** Every table domain with a hit has an entry in the scores. */
  lemma {:induction false} DomainScoresHas(ds: seq<(string, seq<string>)>, text: string, i: nat) returns (a: nat)
    requires i < |ds| && DomainCount(ds[i], text) > 0
    ensures a < |DomainScores(ds, text)| && DomainScores(ds, text)[a] == (ds[i].0, DomainCount(ds[i], text))
  {
    var s := DomainScores(ds, text);
    var rest := DomainScores(ds[1..], text);
    var head := if DomainCount(ds[0], text) > 0 then [(ds[0].0, DomainCount(ds[0], text))] else [];
    assert s == head + rest;
    if i == 0 {
      a := 0;
    } else {
      a := DomainScoresHas(ds[1..], text, i - 1);
      a := a + |head|;
    }
  }

  /** The loop of `classify_medical_domain` that fills `domain_scores`. */
  method CollectDomainScores(ds: seq<(string, seq<string>)>, text: string) returns (scores: Dict<nat>)
    ensures scores == DomainScores(ds, text)
  {
    var i := |ds|;
    scores := [];
    // walking the table from its end keeps the collected entries equal to
    // the scores of the suffix still to be prepended to
    while i > 0
      invariant 0 <= i <= |ds|
      invariant scores == DomainScores(ds[i..], text)
    {
      i := i - 1;
      var c := |Found(ds[i].1, text)|;
      assert ds[i..][1..] == ds[i + 1..];
      if c > 0 {
        scores := [(ds[i].0, c)] + scores;
      }
    }
    assert ds[0..] == ds;
  }

  /** The counts of a score list, as sort keys. */
  function CountsOf(scores: Dict<nat>): (keys: seq<int>)
    ensures |keys| == |scores| && forall i :: 0 <= i < |scores| ==> keys[i] == scores[i].1
  {
    seq(|scores|, i requires 0 <= i < |scores| => scores[i].1 as int)
  }

  /** `[d for d, s in sorted_domains if s == top]`. */
  function NamesWith(sorted: Dict<nat>, top: nat): (r: seq<string>)
    ensures |r| <= |sorted|
  {
    if sorted == [] then []
    else (if sorted[0].1 == top then [sorted[0].0] else []) + NamesWith(sorted[1..], top)
  }

  /** Every name kept comes from an entry with the top count, in the order of the list. */
  lemma {:induction false} NamesWithFrom(sorted: Dict<nat>, top: nat, a: nat, b: nat) returns (p: nat, q: nat)
    requires a <= b < |NamesWith(sorted, top)|
    ensures p <= q < |sorted| && (a < b ==> p < q)
    ensures sorted[p] == (NamesWith(sorted, top)[a], top) && sorted[q] == (NamesWith(sorted, top)[b], top)
  {
    var r := NamesWith(sorted, top);
    var rest := NamesWith(sorted[1..], top);
    if sorted[0].1 == top {
      assert r == [sorted[0].0] + rest;
      if a == 0 && b == 0 {
        p, q := 0, 0;
      } else if a == 0 {
        var _, q' := NamesWithFrom(sorted[1..], top, b - 1, b - 1);
        p, q := 0, q' + 1;
      } else {
        p, q := NamesWithFrom(sorted[1..], top, a - 1, b - 1);
        p, q := p + 1, q + 1;
      }
    } else {
      assert r == rest;
      p, q := NamesWithFrom(sorted[1..], top, a, b);
      p, q := p + 1, q + 1;
    }
  }

  /** Every entry with the top count gives a kept name. */
  lemma {:induction false} NamesWithHas(sorted: Dict<nat>, top: nat, p: nat) returns (a: nat)
    requires p < |sorted| && sorted[p].1 == top
    ensures a < |NamesWith(sorted, top)| && NamesWith(sorted, top)[a] == sorted[p].0
  {
    var rest := NamesWith(sorted[1..], top);
    var head := if sorted[0].1 == top then [sorted[0].0] else [];
    assert NamesWith(sorted, top) == head + rest;
    if p == 0 {
      a := 0;
    } else {
      a := NamesWithHas(sorted[1..], top, p - 1);
      a := a + |head|;
    }
  }

  /** The top domains out of a score list: sort by count, keep those with the first count. */
  function TopDomains(scores: Dict<nat>): seq<string>
  {
    if scores == [] then []
    else
      var sorted := Ranking.SortDesc(scores, CountsOf(scores));
      NamesWith(sorted, sorted[0].1)
  }

  /** `classify_medical_domain(text)`: the top domains and all positive counts. */
  method ClassifyMedicalDomain(text: string) returns (top: seq<string>, scores: Dict<nat>)
    ensures scores == DomainScores(MedicalDomains, text)
    ensures top == TopDomains(scores)
  {
    scores := CollectDomainScores(MedicalDomains, text);
    if scores == [] {
      return [], [];
    }
    top := TopDomains(scores);
  }

  /** The first entry of the sorted list has the largest count. */
  lemma SortedHead(scores: Dict<nat>)
    requires scores != []
    ensures var sorted := Ranking.SortDesc(scores, CountsOf(scores));
      sorted[0] in scores && forall j :: 0 <= j < |scores| ==> scores[j].1 <= sorted[0].1
  {
    var keys := CountsOf(scores);
    var order := Ranking.Rank(keys);
    Ranking.SortDescSpec(scores, keys);
    forall j | 0 <= j < |scores| ensures scores[j].1 <= scores[order[0]].1 {
      assert j in order;
      var a :| 0 <= a < |order| && order[a] == j;
      if a > 0 { assert keys[order[0]] >= keys[order[a]]; }
    }
  }

  /** There are top domains exactly when some domain has a hit. */
  lemma TopDomainsEmpty(scores: Dict<nat>)
    ensures TopDomains(scores) == [] <==> scores == []
  {
    if scores != [] {
      var sorted := Ranking.SortDesc(scores, CountsOf(scores));
      var _ := NamesWithHas(sorted, sorted[0].1, 0);
    }
  }

  /** A domain is among the top domains exactly when its count is the largest. */
  lemma TopDomainsMember(scores: Dict<nat>, d: string)
    ensures d in TopDomains(scores) <==>
      exists i :: 0 <= i < |scores| && scores[i].0 == d && forall j :: 0 <= j < |scores| ==> scores[j].1 <= scores[i].1
  {
    if scores != [] {
      var keys := CountsOf(scores);
      var sorted := Ranking.SortDesc(scores, keys);
      var order := Ranking.Rank(keys);
      Ranking.SortDescSpec(scores, keys);
      SortedHead(scores);
      var top := sorted[0].1;
      var r := TopDomains(scores);
      if d in r {
        var k :| 0 <= k < |r| && r[k] == d;
        var p, _ := NamesWithFrom(sorted, top, k, k);
        assert scores[order[p]] == (d, top);
      }
      if exists i :: 0 <= i < |scores| && scores[i].0 == d && forall j :: 0 <= j < |scores| ==> scores[j].1 <= scores[i].1 {
        var i :| 0 <= i < |scores| && scores[i].0 == d && forall j :: 0 <= j < |scores| ==> scores[j].1 <= scores[i].1;
        assert i in order;
        var p :| 0 <= p < |order| && order[p] == i;
        var k := NamesWithHas(sorted, top, p);
      }
    }
  }

  /** The top domains keep the order of the score list. */
  lemma TopDomainsOrder(scores: Dict<nat>, a: nat, b: nat) returns (i: nat, j: nat)
    requires a < b < |TopDomains(scores)|
    ensures i < j < |scores| && scores[i].0 == TopDomains(scores)[a] && scores[j].0 == TopDomains(scores)[b]
  {
    var keys := CountsOf(scores);
    var sorted := Ranking.SortDesc(scores, keys);
    var order := Ranking.Rank(keys);
    Ranking.SortDescSpec(scores, keys);
    var p, q := NamesWithFrom(sorted, sorted[0].1, a, b);
    assert keys[order[p]] == keys[order[q]];
    i, j := order[p], order[q];
  }

  /** The names of the scores are distinct, as the table's are. */
  lemma DomainScoresDistinct(text: string, a: nat, b: nat)
    requires a < b < |DomainScores(MedicalDomains, text)|
    ensures DomainScores(MedicalDomains, text)[a].0 != DomainScores(MedicalDomains, text)[b].0
  {
    DomainNamesDistinct();
    var i, j := DomainScoresFrom(MedicalDomains, text, a, b);
    assert Names(MedicalDomains)[i] != Names(MedicalDomains)[j];
  }

  /**
    `classify_medical_domain` on the real table: the counts are the
    positive ones, each domain once and in table order; the top domains
    are those with the largest count, and none exactly when no domain
    keyword occurs.
  */
  lemma ClassifyMedicalDomainSpec(text: string, i: nat, d: string)
    ensures var scores := DomainScores(MedicalDomains, text);
      var top := TopDomains(scores);
      && (i < |MedicalDomains| && DomainCount(MedicalDomains[i], text) > 0 ==> (MedicalDomains[i].0, DomainCount(MedicalDomains[i], text)) in scores)
      && (forall a :: 0 <= a < |scores| ==> scores[a].1 > 0)
      && (top == [] <==> forall k :: 0 <= k < |MedicalDomains| ==> DomainCount(MedicalDomains[k], text) == 0)
      && (d in top <==> exists k :: 0 <= k < |scores| && scores[k].0 == d && forall j :: 0 <= j < |scores| ==> scores[j].1 <= scores[k].1)
  {
    var scores := DomainScores(MedicalDomains, text);
    if i < |MedicalDomains| && DomainCount(MedicalDomains[i], text) > 0 {
      var a := DomainScoresHas(MedicalDomains, text, i);
    }
    TopDomainsEmpty(scores);
    TopDomainsMember(scores, d);
    if scores != [] {
      var k, _ := DomainScoresFrom(MedicalDomains, text, 0, 0);
    } else {
      forall k | 0 <= k < |MedicalDomains| ensures DomainCount(MedicalDomains[k], text) == 0 {
        if DomainCount(MedicalDomains[k], text) > 0 {
          var a := DomainScoresHas(MedicalDomains, text, k);
        }
      }
    }
  }

  // --------------------------------------------------------------- roles

  /** `MEDICAL_ROLE_KEYWORDS`, in insertion order. */
  const RoleKeywords: seq<(string, seq<string>)> := [
    ("医療機関向け職種", ["カスタマーサクセス", "CS", "導入支援", "導入コンサル", "導入エンジニア",
                         "フィールドエンジニア", "フィールドサポート", "医療機関向け営業",
                         "医療営業", "医療機器営業", "クリニカルスペシャリスト",
                         "臨床サポート", "臨床導入", "臨床アドバイザー"]),
    ("医療SaaS・DX職種", ["カスタマーサクセス", "オンボーディング", "サポートエンジニア",
                         "プロダクトサポート", "QA", "PM", "医療データアナリスト"]),
    ("医療機器メーカー職種", ["フィールドエンジニア", "サービスエンジニア", "テクニカルサポート",
                             "臨床工学技士歓迎", "医療機器インストラクター"]),
    ("介護・福祉職種", ["施設長", "生活相談員", "ケアマネ", "介護支援専門員", "介護コーディネーター"]),
    ("医療コンサル職種", ["コンサルタント", "医療経営コンサル", "業務改善コンサル", "医療機関支援"])
  ]

  /** The keywords of every category found in the text, category by category. */
  function RoleHits(cats: seq<(string, seq<string>)>, text: string): seq<string>
  {
    if cats == [] then [] else Found(cats[0].1, text) + RoleHits(cats[1..], text)
  }

  /** A keyword is hit exactly when some category lists it and the text contains it. */
  lemma {:induction false} RoleHitsMember(cats: seq<(string, seq<string>)>, text: string, x: string)
    ensures x in RoleHits(cats, text) <==> exists i :: 0 <= i < |cats| && x in cats[i].1 && Contains(text, x)
  {
    if cats != [] {
      FoundMember(cats[0].1, text, x);
      RoleHitsMember(cats[1..], text, x);
      if exists i :: 1 <= i < |cats| && x in cats[i].1 && Contains(text, x) {
        var i :| 1 <= i < |cats| && x in cats[i].1 && Contains(text, x);
        assert cats[1..][i - 1] == cats[i];
      }
    }
  }

  /** `list(dict.fromkeys(s))`: each element once, at its first occurrence. */
  function Dedup(s: seq<string>): (r: seq<string>)
    ensures forall x :: x in r <==> x in s
    ensures Distinct(r)
    ensures forall a, b :: 0 <= a < b < |r| ==> FirstIndex(s, r[a]) < FirstIndex(s, r[b])
  {
    if s == [] then []
    else
      var init := s[..|s| - 1];
      var last := s[|s| - 1];
      var d := Dedup(init);
      forall x | x in init ensures FirstIndex(s, x) == FirstIndex(init, x) {
        FirstIndexPrefix(s, |s| - 1, x);
      }
      if last in d then
        assert s == init + [last];
        d
      else
        assert FirstIndex(s, last) == |s| - 1;
        d + [last]
  }

  /** The first occurrence of an element of a prefix lies in the prefix. */
  lemma FirstIndexPrefix(s: seq<string>, m: nat, x: string)
    requires m <= |s| && x in s[..m]
    ensures FirstIndex(s, x) == FirstIndex(s[..m], x)
  {
    var i := FirstIndex(s[..m], x);
    var k := FirstIndex(s, x);
    assert s[i] == x;
    assert forall j :: 0 <= j < i ==> s[..m][j] == s[j];
  }

  /** The inner loop of `extract_medical_roles`: the words of one category found in the text. */
  method MatchWords(words: seq<string>, text: string) returns (found: seq<string>)
    ensures found == Found(words, text)
  {
    found := [];
    var k := 0;
    while k < |words|
      invariant 0 <= k <= |words|
      invariant found + Found(words[k..], text) == Found(words, text)
    {
      assert words[k..][1..] == words[k + 1..];
      if Contains(text, words[k]) {
        found := found + [words[k]];
      }
      k := k + 1;
    }
  }

  /** The outer loop of `extract_medical_roles`: the hits of every category, appended in turn. */
  method CollectRoleHits(cats: seq<(string, seq<string>)>, text: string) returns (matched: seq<string>)
    ensures matched == RoleHits(cats, text)
  {
    matched := [];
    var c := 0;
    while c < |cats|
      invariant 0 <= c <= |cats|
      invariant matched + RoleHits(cats[c..], text) == RoleHits(cats, text)
    {
      var found := MatchWords(cats[c].1, text);
      assert cats[c..][1..] == cats[c + 1..];
      matched := matched + found;
      c := c + 1;
    }
  }

  /** `extract_medical_roles(text)`: the two loops, then `dict.fromkeys`. */
  method ExtractMedicalRoles(text: string) returns (roles: seq<string>)
    ensures roles == Dedup(RoleHits(RoleKeywords, text))
  {
    var matched := CollectRoleHits(RoleKeywords, text);
    roles := Dedup(matched);
  }

  /**
    The roles are the role keywords found in the text, each once, in the
    order they are first met walking the categories in table order.
  */
  lemma ExtractMedicalRolesSpec(text: string, x: string)
    ensures var roles := Dedup(RoleHits(RoleKeywords, text));
      && (x in roles <==> exists i :: 0 <= i < |RoleKeywords| && x in RoleKeywords[i].1 && Contains(text, x))
      && Distinct(roles)
      && (forall a, b :: 0 <= a < b < |roles| ==>
            FirstIndex(RoleHits(RoleKeywords, text), roles[a]) < FirstIndex(RoleHits(RoleKeywords, text), roles[b]))
  {
    RoleHitsMember(RoleKeywords, text, x);
  }

  // ---------------------------------------------------------------- total

  /** `calculate_role_score(roles)`: one point per role, at most five. */
  function RoleScore(roles: seq<string>): (n: nat)
    ensures n == Min(|roles|, 5)
  {
    var count := |roles|;
    if count == 0 then 0
    else if count == 1 then 1
    else if count == 2 then 2
    else if count == 3 then 3
    else if count == 4 then 4
    else 5
  }

  /** `MEDICAL_DOMAIN_SCORE`. */
  const DomainWeights: Dict<nat> := [
    ("医療機器メーカー", 3), ("医療SaaS・医療DX", 3), ("介護・福祉", 2), ("臨床開発（CRO）", 3),
    ("医療コンサル", 2), ("医療データ・AI", 3), ("医療人材・医療メディア", 1)
  ]

  /** `MEDICAL_DOMAIN_SCORE.get(d, 0)`. */
  function Weight(d: string): (w: nat)
    ensures w <= 3
  {
    match Lookup(DomainWeights, d)
    case Some(w) => assert w in [3, 2, 1] by { var i := IndexOf(DomainWeights, d).value; assert DomainWeights[i].1 in [3, 2, 1]; } w
    case None => 0
  }

  /** The largest weight among `domains`, 0 for none. */
  function BestWeight(domains: seq<string>): (w: nat)
    ensures w <= 3
  {
    if domains == [] then 0
    else Max(BestWeight(domains[..|domains| - 1]), Weight(domains[|domains| - 1]))
  }

  /** The best weight bounds every domain's weight and is 0 or the weight of one of them. */
  lemma {:induction false} BestWeightSpec(domains: seq<string>)
    ensures forall d :: d in domains ==> Weight(d) <= BestWeight(domains)
    ensures BestWeight(domains) == 0 || exists d :: d in domains && Weight(d) == BestWeight(domains)
  {
    if domains != [] {
      var init := domains[..|domains| - 1];
      BestWeightSpec(init);
      assert domains == init + [domains[|domains| - 1]];
    }
  }

  /** `calculate_total_score(medical_score, domains, medical_roles)`. */
  method CalculateTotalScore(medicalScore: int, domains: seq<string>, roles: seq<string>) returns (total: int)
    ensures total == medicalScore * 15 + BestWeight(domains) * 10 + RoleScore(roles) * 12
  {
    var domainScore := 0;
    var i := 0;
    while i < |domains|
      invariant 0 <= i <= |domains|
      invariant domainScore == BestWeight(domains[..i])
    {
      assert domains[..i + 1][..i] == domains[..i];
      domainScore := Max(domainScore, Weight(domains[i]));
      i := i + 1;
    }
    assert domains[..|domains|] == domains;
    total := medicalScore * 15 + domainScore * 10 + RoleScore(roles) * 12;
  }

  /**
    With a medical score from `calculate_medical_score` the total lies in
    15..165: at least the fifteen points of the lowest bucket, at most five
    buckets, the heaviest domain and five roles.
  */
  lemma TotalScoreBounds(text: string, domains: seq<string>, roles: seq<string>)
    ensures var total := CalculateMedicalScore(text).score * 15 + BestWeight(domains) * 10 + RoleScore(roles) * 12;
      15 <= total <= 165
  {
    MedicalScoreSpec(text, "", 0);
  }

  /** A domain outside the table weighs nothing; a table domain weighs 1 to 3. */
  lemma WeightSpec(d: string)
    ensures d !in Names(MedicalDomains) ==> Weight(d) == 0
    ensures d in Names(MedicalDomains) ==> 1 <= Weight(d) <= 3
  {
    assert Keys(DomainWeights) == Names(MedicalDomains);
    match IndexOf(DomainWeights, d)
    case Some(i) => assert DomainWeights[i].1 in [3, 2, 1];
    case None =>
  }
}
