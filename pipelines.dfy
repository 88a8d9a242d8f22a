/**
  The four end-to-end pipelines: `run_pipeline_full.py`, `run_pipeline.py`,
  `run_all_pipeline.py` and `run_full_pipeline.py`. Each one
  1. makes the relevance score present, sorts the companies by it from the
     highest down and splits them into the top 100 and the others;
  2. proposes an industry for every company by keyword voting and counts the
     raw keyword tokens;
  3. reads the manual map (company id to forced industry);
  4. sets each company's industry from the manual map, or else from a
     suggestion with confidence 0.8 or more;
  5. recomputes the scores, the target background and, for a short
     description, the industry template.
  The variants differ in their keyword table, in how the score is
  defaulted, and in whether they guard the empty "others" list; only
  `run_pipeline_full.py` writes the prefill file and the auto-apply log.
*/
module Pipelines {
  import opened Base
  import opened Text
  import opened Keywords
  import opened Rows
  import opened Dicts
  import opened Ranking
  import opened Scoring
  import opened Descriptions
  import opened Suggest
  import KeywordAnalysis
  import Classifiers

  datatype Variant = RunPipelineFull | RunPipeline | RunAllPipeline | RunFullPipeline

  /** The variant's `KEYWORD_MAP`. */
  function KeywordMapOf(v: Variant): (t: Table)
    ensures Classifiers.LabelsNonEmpty(t)
  {
    TablesLabelled();
    match v
    case RunPipelineFull => FullMap
    case RunFullPipeline => NoAiMap
    case _ => PipelineMap
  }

  // ------------------------------------------------------- score and split

  /**
    The score column after the defaulting loop: `r.get(k) or "0"`, except in
    `run_all_pipeline.py`, which only adds "0" when the column is missing.
  */
  function DefaultScore(v: Variant, r: Row): Row
  {
    if v == RunAllPipeline then (if Score in r then r else r[Score := "0"])
    else r[Score := GetOr(r, Score, "0")]
  }

  /**
    Afterwards the column is present, a non-empty cell is kept, only
    `run_all_pipeline.py` can leave it empty, and no other column changes.
  */
  lemma DefaultScoreSpec(v: Variant, r: Row)
    ensures var r' := DefaultScore(v, r);
      && r'.Keys == r.Keys + {Score}
      && (forall k :: k in r && k != Score ==> r'[k] == r[k])
      && (Get(r, Score) != "" ==> r'[Score] == r[Score])
      && (r'[Score] == "" <==> v == RunAllPipeline && Score in r && r[Score] == "")
  {
  }

  /** Every row through the defaulting loop. */
  function DefaultAll(v: Variant, rows: seq<Row>): (rs: seq<Row>)
    ensures |rs| == |rows|
    ensures forall i :: 0 <= i < |rows| ==> rs[i] == DefaultScore(v, rows[i])
  {
    seq(|rows|, i requires 0 <= i < |rows| => DefaultScore(v, rows[i]))
  }

  /**
    The sort key `int(x.get(k) or 0)`: an empty cell counts as 0 and a cell
    `int` rejects stops the script. `run_pipeline.py` writes `int(x[k])`,
    which is the same on its defaulted, never empty, cells.
  */
  function SortKey(r: Row): Option<int>
  {
    if Get(r, Score) == "" then Some(0) else ParseInt(r[Score])
  }

  /** The keys of all rows, or nothing when one of them is not an integer. */
  function SortKeys(rows: seq<Row>): (ks: Option<seq<int>>)
    ensures ks.Some? <==> forall i :: 0 <= i < |rows| ==> SortKey(rows[i]).Some?
    ensures ks.Some? ==> |ks.value| == |rows| && forall i :: 0 <= i < |rows| ==> ks.value[i] == SortKey(rows[i]).value
  {
    if rows == [] then Some([])
    else
      var n := |rows| - 1;
      assert forall i :: 0 <= i < n ==> rows[..n][i] == rows[i];
      match SortKeys(rows[..n])
      case None => None
      case Some(ks) =>
        match SortKey(rows[n])
        case None => None
        case Some(k) => Some(ks + [k])
  }

  /** The first 100 rows by score and the rest. */
  datatype Parts = Parts(top100: seq<Row>, others: seq<Row>)

  /** Defaulting, the stable sort from the highest score down, and the split after 100 rows. */
  function SplitRows(v: Variant, rows: seq<Row>): (r: Result<Parts>)
    ensures r.Ok? ==> rows != [] && |r.value.top100 + r.value.others| == |rows|
  {
    if rows == [] then Err("empty input")
    else
      var rs := DefaultAll(v, rows);
      match SortKeys(rs)
      case None => Err("ValueError: medical_relevance_score is not an integer")
      case Some(keys) =>
        var sorted := SortDesc(rs, keys);
        Ok(Parts(Take(sorted, 100), Drop(sorted, 100)))
  }

  /** The split fails exactly on an empty input or a score that is not an integer. */
  lemma SplitErrors(v: Variant, rows: seq<Row>)
    ensures SplitRows(v, rows).Err? <==>
      rows == [] || exists i :: 0 <= i < |rows| && SortKey(DefaultScore(v, rows[i])).None?
  {
    var rs := DefaultAll(v, rows);
    if rows != [] && SortKeys(rs).None? {
      var i :| 0 <= i < |rs| && SortKey(rs[i]).None?;
      assert SortKey(DefaultScore(v, rows[i])).None?;
    }
  }

  /** The top 100 and the others together are the defaulted rows rearranged, at most 100 on top. */
  lemma SplitShape(v: Variant, rows: seq<Row>)
    requires SplitRows(v, rows).Ok?
    ensures var s := SplitRows(v, rows).value;
      && |s.top100| == Min(100, |rows|)
      && |s.top100 + s.others| == |rows|
      && multiset(s.top100 + s.others) == multiset(DefaultAll(v, rows))
  {
    var rs := DefaultAll(v, rows);
    var keys := SortKeys(rs).value;
    var s := SplitRows(v, rows).value;
    assert s.top100 + s.others == SortDesc(rs, keys);
    SortDescPermutation(rs, keys);
  }

  /** The split lists the companies from the highest score down. */
  lemma SplitSorted(v: Variant, rows: seq<Row>)
    requires SplitRows(v, rows).Ok?
    ensures var s := SplitRows(v, rows).value;
      var all := s.top100 + s.others;
      && (forall a :: 0 <= a < |all| ==> SortKey(all[a]).Some?)
      && (forall a, b :: 0 <= a < b < |all| ==> SortKey(all[a]).value >= SortKey(all[b]).value)
  {
    var rs := DefaultAll(v, rows);
    var keys := SortKeys(rs).value;
    var sorted := SortDesc(rs, keys);
    var s := SplitRows(v, rows).value;
    assert s.top100 + s.others == sorted;
    SortDescSpec(rs, keys);
    var order := Rank(keys);
    forall a | 0 <= a < |sorted| ensures SortKey(sorted[a]) == Some(keys[order[a]]) {
    }
  }

  /** The stable sort keeps the input order among equal scores. */
  lemma SplitStable(v: Variant, rows: seq<Row>)
    requires SplitRows(v, rows).Ok?
    ensures var rs := DefaultAll(v, rows);
      var s := SplitRows(v, rows).value;
      var order := Rank(SortKeys(rs).value);
      && s.top100 + s.others == Permute(rs, order)
      && (forall a, b :: 0 <= a < b < |order| && SortKey(rs[order[a]]) == SortKey(rs[order[b]]) ==> order[a] < order[b])
  {
    var rs := DefaultAll(v, rows);
    SortDescSpec(rs, SortKeys(rs).value);
  }

  // ------------------------------------------- the others file (a finding)

  /**
    The header of `others_companies.csv` as `run_pipeline_full.py` and
    `run_pipeline.py` write it: the columns of `others[0]`, which does not
    exist when there are 100 companies or fewer.
  */
  function OthersHeaderAsWritten(s: Parts): Result<set<string>>
  {
    if s.others == [] then Err("IndexError: list index out of range") else Ok(s.others[0].Keys)
  }

  /**
    The header as `run_all_pipeline.py` and `run_full_pipeline.py` write it,
    used for every variant: with no others, the columns of the first input
    row (after its score was defaulted).
  */
  function OthersHeader(s: Parts, first: Row): set<string>
  {
    if s.others == [] then first.Keys else s.others[0].Keys
  }

  /** As written, a run over 1 to 100 companies with integer scores stops at the others file. */
  lemma OthersIndexError(v: Variant, rows: seq<Row>)
    requires SplitRows(v, rows).Ok? && |rows| <= 100
    ensures OthersHeaderAsWritten(SplitRows(v, rows).value).Err?
  {
    SplitShape(v, rows);
  }

  /**
    The guarded header always exists, is the column set of one of the
    defaulted input rows, and agrees with the unguarded one whenever that
    one succeeds, which it does beyond 100 companies.
  */
  lemma OthersHeaderSpec(v: Variant, rows: seq<Row>)
    requires SplitRows(v, rows).Ok?
    ensures var s, rs := SplitRows(v, rows).value, DefaultAll(v, rows);
      var h := OthersHeader(s, rs[0]);
      && (exists i :: 0 <= i < |rs| && h == rs[i].Keys)
      && (OthersHeaderAsWritten(s).Ok? ==> OthersHeaderAsWritten(s).value == h)
      && (|rows| > 100 ==> OthersHeaderAsWritten(s).Ok?)
  {
    SplitShape(v, rows);
    var s, rs := SplitRows(v, rows).value, DefaultAll(v, rows);
    if s.others != [] {
      var all := s.top100 + s.others;
      assert all[|s.top100|] == s.others[0];
      var i := IndexIn(s.others[0], all, rs);
      assert s.others[0].Keys == rs[i].Keys;
    } else {
      assert OthersHeader(s, rs[0]) == rs[0].Keys;
    }
  }

  /** An element of a sequence has a position in any rearrangement of it. */
  lemma IndexIn<T>(x: T, a: seq<T>, b: seq<T>) returns (i: nat)
    requires x in a && multiset(a) == multiset(b)
    ensures i < |b| && b[i] == x
  {
    assert x in multiset(a);
    assert x in multiset(b);
    i :| 0 <= i < |b| && b[i] == x;
  }

  // ------------------------------------------------------------ suggestions

  /** One line of the suggestions file (the confidence in hundredths). */
  datatype SuggestionRow = SuggestionRow(id: string, name: string, industry: string, conf: nat, hits: seq<string>)

  /** Name, description, raw keywords and raw domains, space-joined. */
  function PipelineText(r: Row): string
  {
    Join(" ", [Get(r, "company_name"), Get(r, "short_description"), Get(r, "raw_medical_keywords"), Get(r, "raw_medical_domains")])
  }

  /** The suggestion for one company. */
  function SuggestRow(v: Variant, r: Row): SuggestionRow
  {
    var s := SuggestFrom(KeywordMapOf(v), PipelineText(r));
    SuggestionRow(Get(r, "company_id"), Get(r, "company_name"), s.industry, s.conf, s.hits)
  }

  /** The suggestions, one per company, in split order. */
  function SuggestAll(v: Variant, rows: seq<Row>): (sugs: seq<SuggestionRow>)
    ensures |sugs| == |rows|
    ensures forall i :: 0 <= i < |rows| ==> sugs[i] == SuggestRow(v, rows[i])
  {
    seq(|rows|, i requires 0 <= i < |rows| => SuggestRow(v, rows[i]))
  }

  /**
    A suggestion names an industry exactly when a keyword occurs, and it is
    confident enough to be applied (0.8) exactly with three votes or more.
  */
  lemma SuggestRowSpec(v: Variant, r: Row)
    ensures var s := SuggestRow(v, r);
      && s.id == Get(r, "company_id")
      && s.hits == Hits(KeywordMapOf(v), Lower(PipelineText(r)))
      && (s.industry == "" <==> s.hits == [])
      && (s.conf >= 60 <==> |s.hits| >= 2)
      && (s.industry != "" && s.conf >= 80 <==> |s.hits| >= 3)
  {
    SuggestSpec(KeywordMapOf(v), PipelineText(r));
  }

  /** `[s for s in suggestions if s.confidence >= 0.6 and s.suggested_industry]`. */
  function Prefill(sugs: seq<SuggestionRow>): (p: seq<SuggestionRow>)
    ensures |p| <= |sugs|
  {
    if sugs == [] then []
    else
      var n := |sugs| - 1;
      Prefill(sugs[..n]) + (if sugs[n].conf >= 60 && sugs[n].industry != "" then [sugs[n]] else [])
  }

  /** The prefill file lists exactly the suggestions naming an industry with confidence 0.6 or more. */
  lemma {:induction false} PrefillMember(sugs: seq<SuggestionRow>, x: SuggestionRow)
    ensures x in Prefill(sugs) <==> x in sugs && x.conf >= 60 && x.industry != ""
  {
    if sugs != [] {
      var n := |sugs| - 1;
      PrefillMember(sugs[..n], x);
      assert sugs == sugs[..n] + [sugs[n]];
    }
  }

  /** For the pipelines' own suggestions: the prefill holds the companies with two votes or more. */
  lemma PrefillVotes(v: Variant, rows: seq<Row>, x: SuggestionRow)
    requires x in SuggestAll(v, rows)
    ensures x in Prefill(SuggestAll(v, rows)) <==> |x.hits| >= 2
  {
    PrefillMember(SuggestAll(v, rows), x);
    var i :| 0 <= i < |rows| && SuggestAll(v, rows)[i] == x;
    SuggestRowSpec(v, rows[i]);
  }

  // -------------------------------------------------------- token frequency

  /** `[p.strip() for p in pieces if p.strip()]`: stripped, not lower-cased. */
  function KeptPieces(pieces: seq<string>): (ts: seq<string>)
    ensures |ts| <= |pieces|
  {
    if pieces == [] then []
    else
      var t := Strip(pieces[0]);
      (if t == "" then [] else [t]) + KeptPieces(pieces[1..])
  }

  /** The tokens of a raw keyword cell: `;` counts as `,`. */
  function RawTokens(cell: string): seq<string>
  {
    KeptPieces(Split(ReplaceChar(cell, ';', ','), ','))
  }

  /** `[t.lower() for t in ts]`. */
  function LowerAll(ts: seq<string>): (r: seq<string>)
    ensures |r| == |ts|
    ensures forall i :: 0 <= i < |ts| ==> r[i] == Lower(ts[i])
  {
    seq(|ts|, i requires 0 <= i < |ts| => Lower(ts[i]))
  }

  /** The pipelines count the same pieces as the keyword analysis, only without lower-casing them. */
  lemma {:induction false} KeptPiecesLowered(pieces: seq<string>)
    ensures KeywordAnalysis.CleanTokens(pieces) == LowerAll(KeptPieces(pieces))
  {
    if pieces != [] {
      KeptPiecesLowered(pieces[1..]);
      var t := Strip(pieces[0]);
      assert LowerAll((if t == "" then [] else [t]) + KeptPieces(pieces[1..]))
        == LowerAll(if t == "" then [] else [t]) + LowerAll(KeptPieces(pieces[1..]));
    }
  }

  /** Lower-casing a cell's pipeline tokens gives its keyword-analysis tokens. */
  lemma RawTokensLowered(cell: string)
    ensures KeywordAnalysis.Tokens(cell) == LowerAll(RawTokens(cell))
  {
    KeptPiecesLowered(Split(ReplaceChar(cell, ';', ','), ','));
  }

  /** A kept piece is non-empty and carries no surrounding whitespace. */
  lemma {:induction false} KeptPiecesStripped(pieces: seq<string>)
    ensures forall i :: 0 <= i < |KeptPieces(pieces)| ==>
      var t := KeptPieces(pieces)[i];
      t != "" && !IsSpace(t[0]) && !IsSpace(t[|t| - 1]) && t == Strip(t)
  {
    if pieces != [] {
      KeptPiecesStripped(pieces[1..]);
      var t := Strip(pieces[0]);
      var head := if t == "" then [] else [t];
      forall i | 0 <= i < |KeptPieces(pieces)|
        ensures var u := KeptPieces(pieces)[i]; u != "" && !IsSpace(u[0]) && !IsSpace(u[|u| - 1]) && u == Strip(u)
      {
        var u := KeptPieces(pieces)[i];
        if i < |head| {
          StripIdempotent(pieces[0]);
        } else {
          assert u == KeptPieces(pieces[1..])[i - |head|];
        }
      }
    }
  }

  /** Every keyword token counted, row by row, in the order the loop meets them. */
  function PipelineTokens(rows: seq<Row>): seq<string>
  {
    if rows == [] then [] else PipelineTokens(rows[..|rows| - 1]) + RawTokens(Get(rows[|rows| - 1], "raw_medical_keywords"))
  }

  /** The rows of `keyword_frequency.csv`: `freq.most_common()`. */
  function PipelineFrequencies(rows: seq<Row>): Dict<nat>
  {
    KeywordAnalysis.MostCommonTokens(PipelineTokens(rows))
  }

  /** Each line is a token with its exact count, counts never increase down the file, and every token has one line. */
  lemma PipelineFrequenciesSpec(rows: seq<Row>)
    ensures var ts, f := PipelineTokens(rows), PipelineFrequencies(rows);
      && (forall a :: 0 <= a < |f| ==> f[a].0 in ts && f[a].1 == Count(ts, f[a].0))
      && (forall a, b :: 0 <= a < b < |f| ==> f[a].1 >= f[b].1)
      && (forall x :: x in ts ==> exists a :: 0 <= a < |f| && f[a] == (x, Count(ts, x)))
  {
    var ts := PipelineTokens(rows);
    assert PipelineFrequencies(rows) == KeywordAnalysis.MostCommonTokens(ts);
    forall a | 0 <= a < |PipelineFrequencies(rows)|
      ensures PipelineFrequencies(rows)[a].0 in ts && PipelineFrequencies(rows)[a].1 == Count(ts, PipelineFrequencies(rows)[a].0)
    {
      KeywordAnalysis.MostCommonEntries(ts, a);
    }
    KeywordAnalysis.MostCommonSorted(ts);
    forall x | x in ts ensures exists a :: 0 <= a < |PipelineFrequencies(rows)| && PipelineFrequencies(rows)[a] == (x, Count(ts, x)) {
      KeywordAnalysis.MostCommonComplete(ts, x);
    }
  }

  // -------------------------------------------------------------- manual map

  /** A template line `company_id, force_industry`: kept when the stripped id and the raw industry are non-empty. */
  function ManualEntry(r: Row): Option<(string, string)>
  {
    var cid := Strip(Get(r, "company_id"));
    if cid != "" && Get(r, "force_industry") != "" then Some((cid, Strip(r["force_industry"]))) else None
  }

  function ManualEntries(template: seq<Row>): (es: seq<Option<(string, string)>>)
    ensures |es| == |template|
    ensures forall i :: 0 <= i < |template| ==> es[i] == ManualEntry(template[i])
  {
    seq(|template|, i requires 0 <= i < |template| => ManualEntry(template[i]))
  }

  /** `manual_map`. */
  function ManualMap(template: seq<Row>): Dict<string>
  {
    FromEntries(ManualEntries(template))
  }

  /** The loop that reads the template. */
  method LoadManualMap(template: seq<Row>) returns (manual: Dict<string>)
    ensures manual == ManualMap(template)
  {
    manual := LoadEntries(ManualEntries(template));
  }

  /**
    An id is mapped exactly when a template line offers it, and to the
    stripped industry of the last line that does.
  */
  lemma ManualMapSpec(template: seq<Row>, cid: string)
    ensures var e := Lookup(ManualMap(template), cid);
      && (e.Some? <==> exists i :: 0 <= i < |template| && Offers(ManualEntry(template[i]), cid))
      && (e.Some? ==> exists i :: (0 <= i < |template| && ManualEntry(template[i]) == Some((cid, e.value))
            && forall j :: i < j < |template| ==> !Offers(ManualEntry(template[j]), cid)))
  {
    FromEntriesLookup(ManualEntries(template), cid);
  }

  /**
    The map's ids are stripped but the companies' ids are looked up as they
    are: an id with leading or trailing whitespace never gets a manual industry.
  */
  lemma ManualMapPaddedId(template: seq<Row>, cid: string)
    requires cid != "" && (IsSpace(cid[0]) || IsSpace(cid[|cid| - 1]))
    ensures Lookup(ManualMap(template), cid).None?
  {
    ManualMapSpec(template, cid);
  }

  // ---------------------------------------------------------------- override

  /** Where a company's new industry came from. */
  datatype Applied = Manual | Auto(conf: nat)

  /** The position of the first suggestion for `cid`. */
  function FirstIndexFor(sugs: seq<SuggestionRow>, cid: string): (r: Option<nat>)
    ensures r.None? <==> forall i :: 0 <= i < |sugs| ==> sugs[i].id != cid
    ensures r.Some? ==> r.value < |sugs| && sugs[r.value].id == cid && forall j :: 0 <= j < r.value ==> sugs[j].id != cid
  {
    if sugs == [] then None
    else if sugs[0].id == cid then Some(0)
    else
      match FirstIndexFor(sugs[1..], cid)
      case None => None
      case Some(i) => Some(i + 1)
  }

  /** `next((x for x in suggestions if x["company_id"] == cid), None)`. */
  function FirstFor(sugs: seq<SuggestionRow>, cid: string): Option<SuggestionRow>
  {
    match FirstIndexFor(sugs, cid)
    case Some(i) => Some(sugs[i])
    case None => None
  }

  /** One company through the override loop: the manual map first, then a confident suggestion. */
  function OverrideRow(r: Row, manual: Dict<string>, sugs: seq<SuggestionRow>): (Row, Option<Applied>)
  {
    var cid := Get(r, "company_id");
    match Lookup(manual, cid)
    case Some(ind) => (r["industry" := ind], Some(Manual))
    case None =>
      match FirstFor(sugs, cid)
      case Some(s) =>
        if s.industry != "" && s.conf >= 80 then (r["industry" := s.industry], Some(Auto(s.conf))) else (r, None)
      case None => (r, None)
  }

  /** A suggestion is applied (an industry named with 0.8 or more) exactly when it had three votes or more. */
  predicate Applicable(s: SuggestionRow)
  {
    (s.industry != "" && s.conf >= 80) <==> |s.hits| >= 3
  }

  /** One suggestion per row, in row order, each carrying its row's id and applicable exactly with three votes. */
  predicate SuggestionsFor(rows: seq<Row>, sugs: seq<SuggestionRow>)
  {
    |sugs| == |rows| && forall j :: 0 <= j < |rows| ==> sugs[j].id == Get(rows[j], "company_id") && Applicable(sugs[j])
  }

  /** A suggestion of the pipelines is applied exactly when it had three votes or more. */
  lemma ApplicableSuggestion(v: Variant, r: Row)
    ensures Applicable(SuggestRow(v, r))
  {
    AutoThreshold(KeywordMapOf(v), PipelineText(r));
  }

  /** The suggestion loop makes suggestions for the rows it reads. */
  lemma SuggestAllFor(v: Variant, rows: seq<Row>)
    ensures SuggestionsFor(rows, SuggestAll(v, rows))
  {
    forall j | 0 <= j < |rows| ensures Applicable(SuggestAll(v, rows)[j]) {
      ApplicableSuggestion(v, rows[j]);
    }
  }

  /**
    The suggestion found for a company is that of the first company with
    the same id, so its own when ids are distinct.
  */
  lemma OwnSuggestion(rows: seq<Row>, sugs: seq<SuggestionRow>, i: nat)
    requires SuggestionsFor(rows, sugs) && i < |rows|
    ensures var cid := Get(rows[i], "company_id");
      exists j :: 0 <= j <= i && Get(rows[j], "company_id") == cid
        && FirstFor(sugs, cid) == Some(sugs[j])
        && forall k :: 0 <= k < j ==> Get(rows[k], "company_id") != cid
  {
    var cid := Get(rows[i], "company_id");
    assert sugs[i].id == cid;
    var j := FirstIndexFor(sugs, cid).value;
    assert j <= i;
  }

  /** Only the industry column can change, and it changes exactly when a source applies. */
  lemma OverrideRowFrame(r: Row, manual: Dict<string>, sugs: seq<SuggestionRow>)
    ensures var (r', a) := OverrideRow(r, manual, sugs);
      && (forall k :: k != "industry" ==> (k in r' <==> k in r) && (k in r ==> r'[k] == r[k]))
      && (a.None? ==> r' == r)
      && (a == Some(Manual) <==> Lookup(manual, Get(r, "company_id")).Some?)
      && (a.Some? ==> "industry" in r')
  {
  }

  /**
    What the override loop does to a company of the run: the manual industry
    when its id is mapped; otherwise the industry of the first suggestion for
    its id when that suggestion has three votes or more; otherwise nothing.
    Only the industry column changes.
  */
  lemma OverrideSpec(rows: seq<Row>, manual: Dict<string>, sugs: seq<SuggestionRow>, i: nat)
    requires SuggestionsFor(rows, sugs) && i < |rows|
    ensures var r, cid := rows[i], Get(rows[i], "company_id");
      var (r', a) := OverrideRow(r, manual, sugs);
      var s := FirstFor(sugs, cid);
      && s.Some?
      && (forall k :: k != "industry" ==> (k in r' <==> k in r) && (k in r ==> r'[k] == r[k]))
      && (Lookup(manual, cid).Some? ==> a == Some(Manual) && r'["industry"] == Lookup(manual, cid).value)
      && (Lookup(manual, cid).None? && |s.value.hits| >= 3 ==> a == Some(Auto(s.value.conf)) && r'["industry"] == s.value.industry)
      && (Lookup(manual, cid).None? && |s.value.hits| < 3 ==> a == None && r' == r)
  {
    OwnSuggestion(rows, sugs, i);
    var cid := Get(rows[i], "company_id");
    var j :| 0 <= j <= i && Get(rows[j], "company_id") == cid && FirstFor(sugs, cid) == Some(sugs[j]);
    assert Applicable(sugs[j]);
    OverrideRowFrame(rows[i], manual, sugs);
  }

  // ------------------------------------------------------ auto-apply log

  /** A line of `auto_apply_log.csv`. */
  datatype LogEntry = LogEntry(id: string, name: string, from: Applied, newIndustry: string, original: string, conf: Option<nat>)

  /** The logged confidence, evidently meant: the applied suggestion's, none for a manual industry. */
  function EntryConf(a: Applied): Option<nat>
  {
    match a
    case Auto(c) => Some(c)
    case Manual => None
  }

  /** The log of the override loop over `rows`: one line per company whose industry was set. */
  function Log(rows: seq<Row>, manual: Dict<string>, sugs: seq<SuggestionRow>): seq<LogEntry>
  {
    if rows == [] then []
    else
      var n := |rows| - 1;
      Log(rows[..n], manual, sugs) + LogLine(rows[n], manual, sugs)
  }

  /** The log over one more company is the log so far and that company's line. */
  lemma LogSnoc(rows: seq<Row>, manual: Dict<string>, sugs: seq<SuggestionRow>, i: nat)
    requires i < |rows|
    ensures Log(rows[..i + 1], manual, sugs) == Log(rows[..i], manual, sugs) + LogLine(rows[i], manual, sugs)
  {
    assert rows[..i + 1][..i] == rows[..i];
    assert rows[..i + 1][i] == rows[i];
  }

  /** The rows over one more company are the rows so far and that company's row. */
  lemma AutoSnoc(rows: seq<Row>, manual: Dict<string>, sugs: seq<SuggestionRow>, i: nat)
    requires i < |rows|
    ensures AutoRows(rows[..i + 1], manual, sugs) == AutoRows(rows[..i], manual, sugs) + [OverrideRow(rows[i], manual, sugs).0]
  {
    var a, b := AutoRows(rows[..i + 1], manual, sugs), AutoRows(rows[..i], manual, sugs) + [OverrideRow(rows[i], manual, sugs).0];
    assert |a| == |b|;
    forall j | 0 <= j < |a| ensures a[j] == b[j] {
      assert rows[..i + 1][j] == rows[j];
    }
  }

  /** The log line of one company: none when its industry was not set. */
  function LogLine(r: Row, manual: Dict<string>, sugs: seq<SuggestionRow>): seq<LogEntry>
  {
    var (r', a) := OverrideRow(r, manual, sugs);
    match a
    case Some(from) => [LogEntry(Get(r, "company_id"), Get(r', "company_name"), from, Get(r', "industry"), Get(r, "industry"), EntryConf(from))]
    case None => []
  }

  /** The log names a manual line without a confidence and an automatic line with its confidence of 0.8 or more. */
  lemma {:induction false} LogConf(rows: seq<Row>, manual: Dict<string>, sugs: seq<SuggestionRow>, e: LogEntry)
    requires e in Log(rows, manual, sugs)
    ensures e.from == Manual ==> e.conf.None?
    ensures e.from.Auto? ==> e.conf == Some(e.from.conf) && e.from.conf >= 80
  {
    var n := |rows| - 1;
    if e in Log(rows[..n], manual, sugs) {
      LogConf(rows[..n], manual, sugs, e);
    }
  }

  /**
    What `s` holds in the loop of `run_pipeline_full.py` after the first
    `rows` companies: the suggestion looked up for the latest company that
    was not in the manual map, or, before any, `last`, the final value of
    the earlier `for s in suggestions` loop.
  */
  function Current(rows: seq<Row>, manual: Dict<string>, sugs: seq<SuggestionRow>, last: Option<SuggestionRow>): Option<SuggestionRow>
  {
    if rows == [] then last
    else
      var n := |rows| - 1;
      if Lookup(manual, Get(rows[n], "company_id")).Some? then Current(rows[..n], manual, sugs, last)
      else FirstFor(sugs, Get(rows[n], "company_id"))
  }

  /** The log as written: every line prints `s["confidence"] if s else ""`, whichever company `s` belongs to. */
  function LogAsWritten(rows: seq<Row>, manual: Dict<string>, sugs: seq<SuggestionRow>, last: Option<SuggestionRow>): seq<LogEntry>
  {
    if rows == [] then []
    else
      var n := |rows| - 1;
      var r := rows[n];
      var (r', a) := OverrideRow(r, manual, sugs);
      var s := Current(rows, manual, sugs, last);
      LogAsWritten(rows[..n], manual, sugs, last) + match a
        case Some(from) => [LogEntry(Get(r, "company_id"), Get(r', "company_name"), from, Get(r', "industry"), Get(r, "industry"),
                                     if s.Some? then Some(s.value.conf) else None)]
        case None => []
  }

  /** The two logs have the same lines and differ at most in the confidence of manual lines. */
  lemma {:induction false} LogAsWrittenDiffers(rows: seq<Row>, manual: Dict<string>, sugs: seq<SuggestionRow>, last: Option<SuggestionRow>)
    ensures var w, c := LogAsWritten(rows, manual, sugs, last), Log(rows, manual, sugs);
      |w| == |c| && forall k :: 0 <= k < |w| ==>
        w[k].(conf := None) == c[k].(conf := None) && (c[k].from.Auto? ==> w[k] == c[k])
  {
    if rows != [] {
      var n := |rows| - 1;
      LogAsWrittenDiffers(rows[..n], manual, sugs, last);
    }
  }

  /**
    The manual line of the second company shows 0.85, the confidence of the
    first company's suggestion, although its own suggestion had none.
  */
  lemma StaleConfidence()
    ensures var sugs := [SuggestionRow("1", "A", "製薬・バイオ", 85, ["製薬・バイオ", "製薬・バイオ", "製薬・バイオ"]),
                         SuggestionRow("2", "B", "", 0, [])];
      var rows := [map["company_id" := "1", "company_name" := "A"], map["company_id" := "2", "company_name" := "B"]];
      var manual := [("2", "介護・福祉")];
      && LogAsWritten(rows, manual, sugs, Some(sugs[1]))[1].conf == Some(85)
      && Log(rows, manual, sugs)[1].conf == None
  {
    var sugs := [SuggestionRow("1", "A", "製薬・バイオ", 85, ["製薬・バイオ", "製薬・バイオ", "製薬・バイオ"]),
                 SuggestionRow("2", "B", "", 0, [])];
    var rows: seq<Row> := [map["company_id" := "1", "company_name" := "A"], map["company_id" := "2", "company_name" := "B"]];
    var manual := [("2", "介護・福祉")];
    assert Lookup(manual, "1").None?;
    assert FirstFor(sugs, "1") == Some(sugs[0]);
    assert rows[..1][..0] == [];
    assert Current(rows, manual, sugs, Some(sugs[1])) == Some(sugs[0]);
    assert |LogAsWritten(rows[..1], manual, sugs, Some(sugs[1]))| == 1;
    assert |Log(rows[..1], manual, sugs)| == 1;
  }

  /** One pass of the override loop: the manual industry, else a confident suggestion, and the log line. */
  method OverrideStep(row: Row, manual: Dict<string>, sugs: seq<SuggestionRow>) returns (r: Row, applied: Option<Applied>, line: seq<LogEntry>)
    ensures (r, applied) == OverrideRow(row, manual, sugs)
    ensures line == LogLine(row, manual, sugs)
  {
    r := row;
    var cid := Get(r, "company_id");
    var original := Get(r, "industry");
    applied := None;
    match Lookup(manual, cid) {
      case Some(ind) =>
        r := r["industry" := ind];
        applied := Some(Manual);
      case None =>
        var s := FirstFor(sugs, cid);
        if s.Some? && s.value.industry != "" && s.value.conf >= 80 {
          r := r["industry" := s.value.industry];
          applied := Some(Auto(s.value.conf));
        }
    }
    line := [];
    if applied.Some? {
      line := [LogEntry(cid, Get(r, "company_name"), applied.value, Get(r, "industry"), original, EntryConf(applied.value))];
    }
  }

  /** The override loop: the industry set row by row, and the log of the corrected form. */
  method ApplyOverrides(rows: seq<Row>, manual: Dict<string>, sugs: seq<SuggestionRow>) returns (auto: seq<Row>, log: seq<LogEntry>)
    ensures auto == AutoRows(rows, manual, sugs)
    ensures log == Log(rows, manual, sugs)
  {
    auto, log := [], [];
    var i := 0;
    while i < |rows|
      invariant 0 <= i <= |rows|
      invariant auto == AutoRows(rows[..i], manual, sugs)
      invariant log == Log(rows[..i], manual, sugs)
    {
      var r, applied, line := OverrideStep(rows[i], manual, sugs);
      LogSnoc(rows, manual, sugs, i);
      AutoSnoc(rows, manual, sugs, i);
      log := log + line;
      auto := auto + [r];
      i := i + 1;
    }
    assert rows[..|rows|] == rows;
  }

  // ------------------------------------------------------------- final rows

  /** The template that replaces a description shorter than 30, when the industry has one. */
  function TemplateFor(sd: string, industry: string): Option<string>
  {
    if |sd| < 30 then Lookup(PipelineTemplates, industry) else None
  }

  /** The final loop's writes into one row: the scores and the background, then the template, if any. */
  function Finish(r: Row, sc: Scores, background: string, template: Option<string>): (f: Row)
    ensures forall k :: k !in Written ==> (k in f <==> k in r) && (k in r ==> f[k] == r[k])
    ensures Get(f, "short_description") == match template case Some(t) => t case None => Get(r, "short_description")
    ensures "side_job_fit_score" in f && ParseInt(f["side_job_fit_score"]) == Some(sc.s)
    ensures "career_shift_fit_score" in f && ParseInt(f["career_shift_fit_score"]) == Some(sc.c)
    ensures "hybrid_fit_score" in f && ParseInt(f["hybrid_fit_score"]) == Some(sc.h)
    ensures "learning_growth_score" in f && ParseInt(f["learning_growth_score"]) == Some(sc.lg)
    ensures "risk_level" in f && ParseInt(f["risk_level"]) == Some(sc.rl)
    ensures "target_background" in f && f["target_background"] == background
  {
    ScoreColumnsExclude();
    ScoresReadBack(r, sc, background);
    var w := WithScores(r, sc, background);
    match template
    case Some(t) => w["short_description" := t]
    case None => w
  }

  /** Step 10 for one company: the recomputed scores, the background and the template fill. */
  function FinalRow(r: Row): (f: Row)
    ensures forall k :: k !in Written ==> (k in f <==> k in r) && (k in r ==> f[k] == r[k])
    ensures Get(f, "industry") == Get(r, "industry")
  {
    ScoreColumnsExclude();
    assert |"industry"| != |"short_description"|;
    var industry := Get(r, "industry");
    Finish(r, Recompute(IntOrZero(Get(r, Score)), industry), TargetBackground(industry),
           TemplateFor(Get(r, "short_description"), industry))
  }

  /** The columns the final loop writes. */
  const Written := ScoreColumns + {"short_description"}

  /**
    The scores read back as those of `Recompute`, the background follows the
    industry, the description is the template fill of the old one, and every
    other column, the industry among them, is unchanged.
  */
  lemma FinalRowSpec(r: Row)
    ensures var r', industry := FinalRow(r), Get(r, "industry");
      var sc := Recompute(IntOrZero(Get(r, Score)), industry);
      && ParseInt(r'["side_job_fit_score"]) == Some(sc.s)
      && ParseInt(r'["career_shift_fit_score"]) == Some(sc.c)
      && ParseInt(r'["hybrid_fit_score"]) == Some(sc.h)
      && ParseInt(r'["learning_growth_score"]) == Some(sc.lg)
      && ParseInt(r'["risk_level"]) == Some(sc.rl)
      && r'["target_background"] == TargetBackground(industry)
      && Get(r', "short_description") == PipelineFill(Get(r, "short_description"), industry)
      && (forall k :: k !in Written ==> (k in r' <==> k in r) && (k in r ==> r'[k] == r[k]))
  {
    var industry := Get(r, "industry");
    assert FinalRow(r) == Finish(r, Recompute(IntOrZero(Get(r, Score)), industry), TargetBackground(industry),
                                 TemplateFor(Get(r, "short_description"), industry));
  }

  // ------------------------------------------------------------ whole run

  /** Everything a run writes. The prefill and the log are written by `run_pipeline_full.py` only. */
  datatype Output = Output(
    split: Parts, othersHeader: set<string>, suggestions: seq<SuggestionRow>, frequencies: Dict<nat>,
    prefill: seq<SuggestionRow>, auto: seq<Row>, log: seq<LogEntry>, final: seq<Row>)

  /** The rows after the override loop. */
  function AutoRows(all: seq<Row>, manual: Dict<string>, sugs: seq<SuggestionRow>): (auto: seq<Row>)
    ensures |auto| == |all|
    ensures forall i :: 0 <= i < |all| ==> auto[i] == OverrideRow(all[i], manual, sugs).0
  {
    seq(|all|, i requires 0 <= i < |all| => OverrideRow(all[i], manual, sugs).0)
  }

  /** The rows after the finalising loop. */
  function FinalRows(auto: seq<Row>): (final: seq<Row>)
    ensures |final| == |auto|
    ensures forall i :: 0 <= i < |auto| ==> final[i] == FinalRow(auto[i])
  {
    seq(|auto|, i requires 0 <= i < |auto| => FinalRow(auto[i]))
  }

  /** What a run writes once the rows are split. */
  function Stages(v: Variant, first: Row, s: Parts, template: seq<Row>): Output
  {
    var all := s.top100 + s.others;
    var sugs := SuggestAll(v, all);
    var manual := ManualMap(template);
    var auto := AutoRows(all, manual, sugs);
    Output(s, OthersHeader(s, first), sugs, PipelineFrequencies(all),
           if v == RunPipelineFull then Prefill(sugs) else [], auto,
           if v == RunPipelineFull then Log(all, manual, sugs) else [],
           FinalRows(auto))
  }

  /** A run over the input rows and the manual template (empty when the file was just created). */
  function Run(v: Variant, rows: seq<Row>, template: seq<Row>): Result<Output>
  {
    match SplitRows(v, rows)
    case Err(e) => Err(e)
    case Ok(s) => Ok(Stages(v, DefaultScore(v, rows[0]), s, template))
  }

  /** The suggestion loop. */
  method SuggestLoop(v: Variant, all: seq<Row>) returns (sugs: seq<SuggestionRow>)
    ensures sugs == SuggestAll(v, all)
  {
    sugs := MapRows(all, r => SuggestRow(v, r));
  }

  /** The finalising loop. */
  method FinalLoop(auto: seq<Row>) returns (final: seq<Row>)
    ensures final == FinalRows(auto)
  {
    final := MapRows(auto, FinalRow);
  }

  /** The script, loop by loop. */
  method Pipeline(v: Variant, rows: seq<Row>, template: seq<Row>) returns (out: Result<Output>)
    ensures out == Run(v, rows, template)
  {
    var split := SplitRows(v, rows);
    if split.Err? {
      return Err(split.reason);
    }
    var s := split.value;
    var all := s.top100 + s.others;
    var sugs := SuggestLoop(v, all);
    var manual := LoadManualMap(template);
    var auto, log := ApplyOverrides(all, manual, sugs);
    var final := FinalLoop(auto);
    out := Ok(Output(s, OthersHeader(s, DefaultScore(v, rows[0])), sugs, PipelineFrequencies(all),
                     if v == RunPipelineFull then Prefill(sugs) else [], auto,
                     if v == RunPipelineFull then log else [], final));
  }

  /** A run stops exactly on an empty input or a score `int` rejects. */
  lemma RunErrors(v: Variant, rows: seq<Row>, template: seq<Row>)
    ensures Run(v, rows, template).Err? <==>
      rows == [] || exists i :: 0 <= i < |rows| && SortKey(DefaultScore(v, rows[i])).None?
  {
    SplitErrors(v, rows);
  }

  /**
    A successful run handles every input company once, in score order: the
    suggestions are made for the sorted rows (so `OverrideSpec` describes
    each overridden row), and each final row is recomputed from the
    overridden one (`FinalRowSpec`).
  */
  lemma RunFinal(v: Variant, rows: seq<Row>, template: seq<Row>)
    requires Run(v, rows, template).Ok?
    ensures var out := Run(v, rows, template).value;
      var all := out.split.top100 + out.split.others;
      && |all| == |rows| && |out.auto| == |rows| && |out.final| == |rows|
      && multiset(all) == multiset(DefaultAll(v, rows))
      && SuggestionsFor(all, out.suggestions)
      && (forall i :: 0 <= i < |rows| ==> out.auto[i] == OverrideRow(all[i], ManualMap(template), out.suggestions).0)
      && (forall i :: 0 <= i < |rows| ==> out.final[i] == FinalRow(out.auto[i]))
  {
    SplitShape(v, rows);
    var sp := SplitRows(v, rows).value;
    SuggestAllFor(v, sp.top100 + sp.others);
  }
}
