/**
  The override and join scripts: `apply_manual_map.py` (a manual
  id → industry map laid over the master list), `apply_high_confidence_map.py`
  (the manual template rebuilt from the suggestions) and
  `merge_raw_metadata.py` (raw metadata joined on the normalised name).
*/
module Merges {
  import opened Base
  import opened Text
  import opened Dicts
  import opened Rows

  // ------------------------------------------------------ apply_manual_map.py

  /**
    One template line: the stripped id with the stripped forced industry,
    skipped when the id is empty. An empty industry is kept, so it can
    overwrite an earlier non-empty one.
  */
  function TemplateEntry(r: Row): Option<(string, string)>
  {
    var cid := Strip(Get(r, "company_id"));
    if cid != "" then Some((cid, Strip(Get(r, "force_industry")))) else None
  }

  function TemplateEntries(template: seq<Row>): (es: seq<Option<(string, string)>>)
    ensures |es| == |template|
    ensures forall i :: 0 <= i < |template| ==> es[i] == TemplateEntry(template[i])
  {
    seq(|template|, i requires 0 <= i < |template| => TemplateEntry(template[i]))
  }

  /** `mapping`: empty when the template file does not exist. */
  function Mapping(template: Option<seq<Row>>): Dict<string>
  {
    match template
    case Some(t) => FromEntries(TemplateEntries(t))
    case None => []
  }

  /** One master row: the industry is replaced when the stripped id maps to a non-empty industry. */
  function MapRow(mapping: Dict<string>, r: Row): Row
  {
    match Lookup(mapping, Strip(Get(r, "company_id")))
    case Some(v) => if v != "" then r["industry" := v] else r
    case None => r
  }

  /** `apply_manual_map.py`: the template loop, then the loop over the master rows. */
  method ApplyManualMap(template: Option<seq<Row>>, rows: seq<Row>) returns (out: seq<Row>)
    ensures |out| == |rows|
    ensures forall i :: 0 <= i < |rows| ==> out[i] == MapRow(Mapping(template), rows[i])
  {
    var mapping: Dict<string> := [];
    if template.Some? {
      mapping := LoadEntries(TemplateEntries(template.value));
    }
    out := MapRows(rows, r => MapRow(mapping, r));
  }

  /**
    A row changes at most in its industry, and it changes exactly when the
    stripped id is mapped to a non-empty industry, which it then holds.
  */
  lemma MapRowSpec(mapping: Dict<string>, r: Row)
    ensures var r' := MapRow(mapping, r);
      var e := Lookup(mapping, Strip(Get(r, "company_id")));
      && Keeps(r, r', if e.Some? && e.value != "" then {"industry"} else {})
      && (e.Some? && e.value != "" ==> r'["industry"] == e.value)
      && (!(e.Some? && e.value != "") ==> r' == r)
  {
  }

  /** A template line offers an id exactly when its stripped id is that non-empty id. */
  lemma TemplateEntryOffers(template: seq<Row>, cid: string)
    ensures forall j :: 0 <= j < |template| ==>
      (Offers(TemplateEntries(template)[j], cid) <==> cid != "" && Strip(Get(template[j], "company_id")) == cid)
  {
  }

  /** The template maps an id exactly when some line carries that stripped, non-empty id. */
  lemma MappingKeys(template: seq<Row>, cid: string)
    ensures Lookup(Mapping(Some(template)), cid).Some? <==>
      exists i :: 0 <= i < |template| && cid != "" && Strip(Get(template[i], "company_id")) == cid
  {
    FromEntriesKeys(TemplateEntries(template), cid);
    TemplateEntryOffers(template, cid);
  }

  /**
    A mapped id holds the stripped industry of the last line carrying it,
    empty or not.
  */
  lemma MappingLast(template: seq<Row>, cid: string) returns (i: nat)
    requires Lookup(Mapping(Some(template)), cid).Some?
    ensures i < |template| && Strip(Get(template[i], "company_id")) == cid
    ensures Strip(Get(template[i], "force_industry")) == Lookup(Mapping(Some(template)), cid).value
    ensures forall j :: i < j < |template| ==> Strip(Get(template[j], "company_id")) != cid
  {
    var es := TemplateEntries(template);
    FromEntriesLast(es, cid);
    TemplateEntryOffers(template, cid);
    i :| 0 <= i < |es| && es[i] == Some((cid, Lookup(Mapping(Some(template)), cid).value)) && forall j :: i < j < |es| ==> !Offers(es[j], cid);
  }

  /** Without a template file every row is written as it was read. */
  lemma NoTemplateNoChange(r: Row)
    ensures MapRow(Mapping(None), r) == r
  {
  }

  /**
    A later line with an empty industry cancels an earlier mapping of the
    same id: the last line wins even when it forces nothing.
  */
  lemma LaterEmptyLineCancels(first: Row, last: Row, r: Row)
    requires Strip(Get(first, "company_id")) != ""
    requires Strip(Get(last, "company_id")) == Strip(Get(first, "company_id")) == Strip(Get(r, "company_id"))
    requires Strip(Get(last, "force_industry")) == ""
    ensures MapRow(Mapping(Some([first, last])), r) == r
  {
    var es := TemplateEntries([first, last]);
    assert es[..1] == [TemplateEntry(first)];
    assert es[..1][..0] == [];
    FromEntriesStep(es, Strip(Get(r, "company_id")));
  }

  // --------------------------------------------- apply_high_confidence_map.py

  /** `existing`: raw id → raw forced industry, every template line, the last one winning. */
  function ExistingEntry(r: Row): Option<(string, string)>
  {
    Some((Get(r, "company_id"), Get(r, "force_industry")))
  }

  function ExistingEntries(template: seq<Row>): (es: seq<Option<(string, string)>>)
    ensures |es| == |template|
    ensures forall i :: 0 <= i < |template| ==> es[i] == ExistingEntry(template[i])
  {
    seq(|template|, i requires 0 <= i < |template| => ExistingEntry(template[i]))
  }

  /** The existing template, empty when there is no file. */
  function Existing(template: Option<seq<Row>>): Dict<string>
  {
    match template
    case Some(t) => FromEntries(ExistingEntries(t))
    case None => []
  }

  /**
    `float(r.get("confidence") or 0)` in hundredths: an absent or empty
    cell is 0, text `float` rejects is `None` (the script stops there).
  */
  function ConfidenceOf(r: Row): Option<nat>
  {
    if Get(r, "confidence") == "" then Some(0) else Hundredths(r["confidence"])
  }

  /** A line of the rebuilt template. */
  function TemplateLine(cid: string, name: string, industry: string): (line: Row)
    ensures line.Keys == {"company_id", "company_name", "force_industry"}
    ensures line["company_id"] == cid && line["company_name"] == name && line["force_industry"] == industry
  {
    map["company_id" := cid, "company_name" := name, "force_industry" := industry]
  }

  /** What one suggestion line contributes: nothing, a line, or a stop on an unreadable confidence. */
  function Rebuilt(existing: Dict<string>, r: Row): Result<Option<Row>>
  {
    var cid := Get(r, "company_id");
    if cid == "" then Ok(None)
    else
      match ConfidenceOf(r)
      case None => Err("could not convert string to float")
      case Some(conf) =>
        var suggested := Strip(Get(r, "suggested_industry"));
        if conf >= 80 && suggested != "" then Ok(Some(TemplateLine(cid, Get(r, "company_name"), suggested)))
        else match Lookup(existing, cid)
          case Some(v) => if v != "" then Ok(Some(TemplateLine(cid, Get(r, "company_name"), v))) else Ok(None)
          case None => Ok(None)
  }

  /** The step of the loop over the suggestion lines. */
  function Rebuilder(existing: Dict<string>): Row -> Result<Option<Row>>
  {
    r => Rebuilt(existing, r)
  }

  /** `to_write` after the loop over the suggestion lines. */
  function ToWrite(existing: Dict<string>, sugs: seq<Row>): Result<seq<Row>>
  {
    Collected(Rebuilder(existing), sugs)
  }

  /**
    `apply_high_confidence_map.py` up to the template write: no suggestion
    file stops the script; otherwise the existing template is read and the
    loop builds the new lines.
  */
  method RebuildTemplate(template: Option<seq<Row>>, sugs: Option<seq<Row>>) returns (out: Result<seq<Row>>)
    ensures sugs.None? ==> out.Err?
    ensures sugs.Some? ==> out == ToWrite(Existing(template), sugs.value)
  {
    if sugs.None? {
      return Err("suggestions not found");
    }
    var existing: Dict<string> := [];
    if template.Some? {
      existing := LoadEntries(ExistingEntries(template.value));
    }
    out := CollectRows(Rebuilder(existing), sugs.value);
  }

  /**
    A suggestion line with an id and a readable confidence gives a line
    exactly when the confidence is at least 0.8 with a non-empty stripped
    suggestion (then the suggestion, even over a manual value) or when the
    existing template holds a non-empty industry for the id (then that one);
    an empty id is skipped.
  */
  lemma RebuiltSpec(existing: Dict<string>, r: Row)
    ensures var cid := Get(r, "company_id");
      var suggested := Strip(Get(r, "suggested_industry"));
      var e := Lookup(existing, cid);
      && (cid == "" ==> Rebuilt(existing, r) == Ok(None))
      && (cid != "" && ConfidenceOf(r).None? ==> Rebuilt(existing, r).Err?)
      && (cid != "" && ConfidenceOf(r).Some? && ConfidenceOf(r).value >= 80 && suggested != "" ==>
            Rebuilt(existing, r) == Ok(Some(TemplateLine(cid, Get(r, "company_name"), suggested))))
      && (cid != "" && ConfidenceOf(r).Some? && !(ConfidenceOf(r).value >= 80 && suggested != "") ==>
            Rebuilt(existing, r) == (if e.Some? && e.value != "" then Ok(Some(TemplateLine(cid, Get(r, "company_name"), e.value))) else Ok(None)))
  {
  }

  /**
    Every line written comes from a suggestion line with the same id, in
    suggestion order, and carries a non-empty industry: an existing entry
    whose id no suggestion names is dropped.
  */
  lemma {:induction false} ToWriteFromSuggestions(existing: Dict<string>, sugs: seq<Row>, a: nat) returns (i: nat)
    requires ToWrite(existing, sugs).Ok? && a < |ToWrite(existing, sugs).value|
    ensures i < |sugs| && Rebuilt(existing, sugs[i]) == Ok(Some(ToWrite(existing, sugs).value[a]))
    ensures ToWrite(existing, sugs).value[a]["company_id"] == Get(sugs[i], "company_id") != ""
    ensures ToWrite(existing, sugs).value[a]["force_industry"] != ""
  {
    var n := |sugs| - 1;
    var prev := ToWrite(existing, sugs[..n]);
    var lines := prev.value;
    assert Rebuilder(existing)(sugs[n]) == Rebuilt(existing, sugs[n]);
    match Rebuilt(existing, sugs[n])
    case Ok(None) =>
      i := ToWriteFromSuggestions(existing, sugs[..n], a);
    case Ok(Some(line)) =>
      if a < |lines| {
        i := ToWriteFromSuggestions(existing, sugs[..n], a);
      } else {
        i := n;
      }
  }

  /** The rebuilt template never holds more lines than there are suggestions. */
  lemma {:induction false} ToWriteLength(existing: Dict<string>, sugs: seq<Row>)
    requires ToWrite(existing, sugs).Ok?
    ensures |ToWrite(existing, sugs).value| <= |sugs|
  {
    if sugs != [] {
      ToWriteLength(existing, sugs[..|sugs| - 1]);
    }
  }

  // ----------------------------------------------------- merge_raw_metadata.py

  /** The join key: the stripped, lower-cased company name. */
  function NameKey(r: Row): string
  {
    Lower(Strip(Get(r, "company_name")))
  }

  /** The three metadata cells kept for a raw company. */
  datatype Meta = Meta(keywords: string, domains: string, total: string)

  /** One raw line: skipped when its key is empty; the total falls back to the keyword count. */
  function MetaEntry(r: Row): Option<(string, Meta)>
  {
    var key := NameKey(r);
    if key == "" then None
    else Some((key, Meta(Get(r, "medical_keywords"), Get(r, "medical_domains"),
                         if Get(r, "total_medical_score") != "" then r["total_medical_score"] else Get(r, "medical_keyword_count"))))
  }

  function MetaEntries(raw: seq<Row>): (es: seq<Option<(string, Meta)>>)
    ensures |es| == |raw|
    ensures forall i :: 0 <= i < |raw| ==> es[i] == MetaEntry(raw[i])
  {
    seq(|raw|, i requires 0 <= i < |raw| => MetaEntry(raw[i]))
  }

  /** `meta`: key → metadata, the last raw line of a key winning. */
  function MetaMap(raw: seq<Row>): Dict<Meta>
  {
    FromEntries(MetaEntries(raw))
  }

  /** The columns the join appends. */
  const MetaHeader: seq<string> := ["raw_medical_keywords", "raw_medical_domains", "raw_total_medical_score"]
  const MetaColumns: set<string> := {"raw_medical_keywords", "raw_medical_domains", "raw_total_medical_score"}

  /** The three cells written into a master row. */
  function MetaCells(m: Meta): (cells: seq<(string, string)>)
    ensures DistinctColumns(cells) && Columns(cells) == MetaColumns
  {
    var cells := [("raw_medical_keywords", m.keywords), ("raw_medical_domains", m.domains), ("raw_total_medical_score", m.total)];
    assert cells[0].0 in Columns(cells) && cells[1].0 in Columns(cells) && cells[2].0 in Columns(cells);
    cells
  }

  /** One master row with the metadata of its name, or three empty cells when there is none. */
  function MergeRow(meta: Dict<Meta>, r: Row): Row
  {
    var m := match Lookup(meta, NameKey(r)) case Some(m) => m case None => Meta("", "", "");
    Write(r, MetaCells(m))
  }

  /**
    The joined row keeps every other column and holds the three cells of
    the name's metadata, or three empty cells when the name is unknown.
  */
  lemma MergeRowSpec(meta: Dict<Meta>, r: Row)
    ensures var m := match Lookup(meta, NameKey(r)) case Some(m) => m case None => Meta("", "", "");
      var r' := MergeRow(meta, r);
      && Keeps(r, r', MetaColumns)
      && r'["raw_medical_keywords"] == m.keywords
      && r'["raw_medical_domains"] == m.domains
      && r'["raw_total_medical_score"] == m.total
  {
    var m := match Lookup(meta, NameKey(r)) case Some(m) => m case None => Meta("", "", "");
    var cells := MetaCells(m);
    WriteKeeps(r, cells);
    WriteAt(r, cells, 0);
    WriteAt(r, cells, 1);
    WriteAt(r, cells, 2);
  }

  /** A raw line offers a key exactly when its name key is that non-empty key. */
  lemma MetaEntryOffers(raw: seq<Row>, key: string)
    ensures forall j :: 0 <= j < |raw| ==> (Offers(MetaEntries(raw)[j], key) <==> key != "" && NameKey(raw[j]) == key)
  {
  }

  /**
    A key has metadata exactly when some raw line has that non-empty name
    key, so a master row whose name strips to nothing is never matched.
  */
  lemma MetaKeys(raw: seq<Row>, key: string)
    ensures Lookup(MetaMap(raw), key).Some? <==> exists i :: 0 <= i < |raw| && key != "" && NameKey(raw[i]) == key
    ensures key == "" ==> Lookup(MetaMap(raw), key).None?
  {
    FromEntriesKeys(MetaEntries(raw), key);
    MetaEntryOffers(raw, key);
  }

  /** The metadata of a key comes from the last raw line with that key. */
  lemma MetaLast(raw: seq<Row>, key: string) returns (i: nat)
    requires Lookup(MetaMap(raw), key).Some?
    ensures i < |raw| && MetaEntry(raw[i]) == Some((key, Lookup(MetaMap(raw), key).value))
    ensures forall j :: i < j < |raw| ==> NameKey(raw[j]) != key
  {
    var es := MetaEntries(raw);
    FromEntriesLast(es, key);
    MetaEntryOffers(raw, key);
    i :| 0 <= i < |es| && es[i] == Some((key, Lookup(MetaMap(raw), key).value)) && forall j :: i < j < |es| ==> !Offers(es[j], key);
  }

  /** The total a raw line contributes: its total score, else its keyword count, else empty. */
  lemma MetaTotalFallback(r: Row)
    requires NameKey(r) != ""
    ensures var t := MetaEntry(r).value.1.total;
      && (Get(r, "total_medical_score") != "" ==> t == Get(r, "total_medical_score"))
      && (Get(r, "total_medical_score") == "" ==> t == Get(r, "medical_keyword_count"))
  {
  }

  /** `merge_raw_metadata.py`: the raw loop, the extended header, and every master row joined once, in order. */
  method MergeRawMetadata(raw: seq<Row>, header: seq<string>, rows: seq<Row>) returns (header': seq<string>, out: seq<Row>)
    ensures header' == header + MetaHeader
    ensures |out| == |rows|
    ensures forall i :: 0 <= i < |rows| ==> out[i] == MergeRow(MetaMap(raw), rows[i])
  {
    var meta := LoadEntries(MetaEntries(raw));
    header' := header + MetaHeader;
    out := MapRows(rows, r => MergeRow(meta, r));
  }
}
