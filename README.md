# Rule engines of the company-list CSV scripts

The repository is a set of one-off Python scripts that build and refine a
list of medical-sector companies, kept as CSV files, and a LINE bot that
recommends companies after a short survey. Each script reads rows, applies
a small set of rules, and writes the rows back. This project models those
rules and proves what they guarantee:

- **Industry classification** (`keywords.dfy`, `classifiers.dfy`,
  `suggest.dfy`, `keyword_analysis.dfy`, `master.dfy`). The first-match
  cascades and ordered keyword dictionaries of the relabelling scripts. The
  keyword voting of the pipelines, with confidence `min(0.95, 0.4 + 0.15·n)`
  kept as whole hundredths. The token counting of the keyword analysis.
  The inferred industry, short sentence and score of the master build.
- **Scores** (`scores.dfy`, `score_scripts.dfy`). The threshold tables for
  the side-job, career-shift, hybrid and learning-growth fits, the clamped
  risk level, the target background, and the row loops of the scoring
  scripts.
- **Descriptions** (`descriptions.dfy`). The template fill for short
  descriptions and the 45-character cut.
- **Pipelines** (`pipelines.dfy`). The four end-to-end pipelines: the
  top-100 split, the suggestions, the manual map, the auto-apply rule, the
  recomputed scores and the finalised rows.
- **Overrides and joins** (`merges.dfy`). The manual id-to-industry map,
  the manual template rebuilt from high-confidence suggestions, and the
  metadata join on the normalised company name.
- **Reports** (`reports.dfy`). Industry counts, the score distribution, the
  top-100 export and the "その他医療関連" extract.
- **Recruit-page scoring** (`recruit.dfy`). Keyword hits, the bucketed
  medical score, the domain classification, role extraction and the
  weighted total of `legacy/recruit_parser.py`.
- **Selection and pitches** (`selection.dfy`). The candidate filter, the
  top 20, the careers-page check, the jobs-first ordering and the
  four-line pitch.
- **Diagnosis and the LINE bot** (`diagnosis.dfy`, `linebot.dfy`). The
  twenty-answer thinking-pattern diagnosis, the per-user answer collection
  of the bot, and its top-three pick.

Shared pieces: `base.dfy` (rows as column-to-text maps, `Option`,
`Result`, the generic row loops), `text.dfy` (Python's string operations,
`int()` and the two-decimal `float()`), `dicts.dfy` (insertion-ordered
dictionaries) and `ranking.dfy` (Python's stable descending sort).

A CSV row is a `map<string, string>`. A loop that changes rows one by one
is a method whose loop invariants tie its result to a function of the
input rows. A script that can stop with an exception returns a `Result`.
The network and the company file are parameters.

## Model

| member | source | states |
|---|---|---|
| Base.Get | extract_others.py:16-21 | `row.get(k, "")`: the cell text, "" when the column is absent |
| Base.GetOr | summary_report.py:21 | `row.get(k) or d`: the cell when present and non-empty, else the default |
| Base.Assign | run_pipeline_full.py:184 | `row[k] = v` sets that cell and leaves every other cell as it was |
| Base.KeepsCompose | run_pipeline_full.py:253-270 | two rounds of writes change only the union of their columns |
| Base.WriteKeeps | merge_raw_metadata.py:31-33 | writing a list of cells changes exactly their columns |
| Base.WriteAt | merge_raw_metadata.py:31-33 | with no column written twice, each column reads back as the value written into it |
| Base.WriteTwice | merge_raw_metadata.py:31-33 | writing the same cells twice is writing them once |
| Base.Take | run_pipeline_full.py:99 | `s[:n]` is the prefix of length `min(n, len(s))` |
| Base.Drop | run_pipeline_full.py:100 | `s[n:]` is what `s[:n]` leaves, so the two together are `s` |
| Rows.FilterMap | extract_others.py:13-22 | a filtering loop writes at most one row per input row |
| Rows.FilterMapFrom | extract_others.py:13-22 | every written row is the projection of a kept input row |
| Rows.FilterMapHas | extract_others.py:13-22 | every kept input row is written, at an index no later than its own |
| Rows.FilterMapOrder | extract_others.py:13-22 | written rows keep input order |
| Rows.FilterMapCount | extract_others.py:13-22 | exactly one written row per kept input row |
| Rows.MapRows | summary_report.py:10-18 | a loop that rewrites each row and appends it keeps the count and order of the rows |
| Rows.MappedConcat | run_pipeline_full.py:106 | two mapped lists written one after the other map their concatenation |
| Rows.FilterMapRows | extract_others.py:13-22 | the filtering loop yields exactly `FilterMap` |
| Rows.CollectedStops | apply_high_confidence_map.py:25 | once a line raises, the script stops with that error whatever follows |
| Rows.CollectRows | apply_high_confidence_map.py:20-30 | the collecting loop yields exactly `Collected`: the lines collected so far or the first error |
| Ranking.Rank | run_pipeline_full.py:98 | the positions of the keys from the largest down, each once, equal keys in input order |
| Ranking.SortDesc | run_pipeline_full.py:98 | `sorted(..., reverse=True)` keeps the number of items |
| Ranking.SortDescSpec | export_top100.py:18 | the sorted list picks every input item once by a ranking whose keys never increase and whose ties keep input order |
| Ranking.SortDescPermutation | summary_report.py:40 | sorting is a permutation: every item appears as often as in the input |
| Ranking.TopIsHighest | export_top100.py:23 | a position left out of the first `n` has a key no greater than any of those kept |
| Text.ContainsAt | build_companies_master.py:14 | `k in text` holds exactly when `k` occurs at some position of `text` |
| Text.ContainsInSuffix | improve_industry_v2.py:41-44 | a keyword found in one part of a joined text is found in the whole (right part) |
| Text.ContainsInPrefix | improve_industry_v2.py:41-44 | a keyword found in one part of a joined text is found in the whole (left part) |
| Text.ContainsBound | build_companies_master.py:14 | a keyword is never longer than a text it occurs in |
| Text.LowerChar | run_pipeline_full.py:60 | lowering a character leaves no ASCII capital, keeps every other character and maps `A`–`Z` to `a`–`z` |
| Text.Lower | run_pipeline_full.py:60 | `str.lower()` keeps the length and lowers character by character |
| Text.LowerIdempotent | run_pipeline_full.py:60 | the lowered text has no ASCII capital, and lowering twice is lowering once |
| Text.ContainsLower | run_pipeline_full.py:60-63 | a lower-case keyword found in the text is still found after lowering the text |
| Text.ContainsLowered | auto_apply_suggested_keywords.py:21 | an occurrence survives lowering both sides |
| Text.LStrip | select_and_pitch.py:56 | `lstrip(chars)` never lengthens and leaves no stripped character in front |
| Text.LStripSuffix | select_and_pitch.py:56 | what `lstrip` removes is a prefix of stripped characters |
| Text.RStrip | select_and_pitch.py:58 | `rstrip(chars)` is a prefix of its input with no stripped character at the end |
| Text.RStripPrefix | select_and_pitch.py:58 | what `rstrip` removes is a suffix of stripped characters |
| Text.Strip | apply_manual_map.py:13 | `strip()` never lengthens and leaves no whitespace at either end |
| Text.StripChars | apply_manual_map.py:13 | every character of the stripped text comes from the input |
| Text.StripNoSpace | select_and_pitch.py:134 | a text without whitespace is its own strip |
| Text.StripIdempotent | apply_manual_map.py:13 | stripping twice is stripping once |
| Text.Join | run_pipeline_full.py:113 | `sep.join([])` is "" and the join of one piece is that piece |
| Text.Split | run_pipeline_full.py:125 | `s.split(sep)` yields at least one piece |
| Text.SplitPiecesFree | run_pipeline_full.py:125 | no piece of a split holds the separator |
| Text.JoinSplit | run_pipeline_full.py:120 | joining the pieces of a split with its separator gives back the text |
| Text.SplitNoSeparator | select_and_pitch.py:133 | a text without the separator splits into itself alone |
| Text.SplitConcat | run_pipeline_full.py:125 | splitting at a separator splits each side separately |
| Text.SplitChars | run_pipeline_full.py:125 | every character of a piece comes from the text split |
| Text.ReplaceChar | run_pipeline_full.py:125 | `s.replace(a, b)` keeps the length, removes every `a` and keeps every other character |
| Text.ReplaceCharConcat | run_pipeline_full.py:125 | replacing in a concatenation replaces in each part |
| Text.RemoveChar | build_companies_master.py:10 | `s.replace(c, "")` removes every `c`, never lengthens, and leaves a text without `c` as it is |
| Text.DigitChar | main.py:39-40 | each digit has its ASCII character |
| Text.NatToString | run_pipeline_full.py:253-257 | `str(n)` is a digit run with value `n` and no leading zero |
| Text.IntToString | run_pipeline_full.py:253-257 | `str(n)` is never empty and holds no whitespace |
| Text.ParseIntToString | summary_report.py:15 | `int(str(n)) == n` |
| Text.ParseIntNoDigits | summary_report.py:14-17 | an empty cell or text without digits fails `int` and reads as 0 |
| Text.HundredthsNoDigits | select_and_pitch.py:43-47 | an empty cell or text without digits fails `float` |
| Text.FindChar | select_and_pitch.py:133-134 | the position found holds the first occurrence of the character; none when it is absent |
| Text.FractionHundredths | apply_high_confidence_map.py:25 | the first two fraction digits give a value below 100 |
| Text.FindCharAfter | select_and_pitch.py:133-134 | the first separator of `a + sep + b` is the one after `a` when `a` has none |
| Text.FractionRoundTrip | run_pipeline_full.py:71 | the one or two decimals printed for a confidence read back as its hundredths |
| Text.HundredthsText | run_pipeline_full.py:119 | a printed confidence parses back to the same hundredths |
| Text.HundredthsNoSpace | run_pipeline_full.py:119 | a printed confidence holds no whitespace to strip |
| Text.HundredthsRoundTrip | run_pipeline_full.py:189 | `float(str(conf))` gives back the confidence that was written |
| Keywords.HitsMember | generate_manual_map_suggestions.py:25-28 | an industry gets a vote exactly when one of its keywords occurs in the text |
| Keywords.HitsAppend | generate_manual_map_suggestions.py:26-28 | the votes of a table split in two are the votes of each part, in table order |
| Keywords.CollectHits | generate_manual_map_suggestions.py:25-28 | the voting loop appends the industry of every keyword found, in table order |
| Keywords.Count | generate_manual_map_suggestions.py:33 | a `Counter` count is at most the length and positive exactly for the elements present |
| Keywords.MostCommon | generate_manual_map_suggestions.py:33-34 | `most_common(1)` gives an element present, with its count, no element counted more, ties won by the earliest first occurrence |
| Keywords.Confidence | generate_manual_map_suggestions.py:35-36 | the confidence, in hundredths, is at most 0.95 and at least 0.55 once there is a vote |
| Keywords.ConfidenceThresholds | run_pipeline_full.py:70 | confidence reaches 0.6 exactly from two votes and 0.8 exactly from three; four or more give 0.95 |
| Keywords.FirstMatchIndex | improve_industry_v2.py:41-43 | the first keyword in table order occurring in the text; no earlier keyword occurs; none when no keyword occurs |
| Keywords.FirstMatchIsFirstHit | improve_industry_v2.py:41-44 | the first-match lookup returns the first vote, and nothing exactly when there is no vote |
| Keywords.FirstMatchAppend | improve_industry_v2.py:41-43 | the first match of a table split in two is the first part's, else the second part's |
| Keywords.FindFirst | improve_industry_v2.py:41-44 | the lookup loop returns as soon as a keyword occurs, with the first-match result |
| Keywords.CascadeSpec | reclassify_industry.py:11-33 | an `if` cascade returns the industry of the first branch whose condition holds, and nothing exactly when none holds |
| Keywords.CascadeSkip | reclassify_industry.py:11-32 | when the first n branches fail the cascade decides as its remaining branches |
| Keywords.CascadeIsFirstMatch | reclassify_industry.py:11-33 | a cascade of `or` conditions decides as the first-match lookup of its flattened keyword table |
| Classifiers.ReapplyKeepsLabel | reclassify_industry.py:33 | the fallback `row.get("industry") or "その他医療関連"` keeps a label already written |
| Classifiers.FoundNonEmpty | improve_industry_v2.py:41-43 | a table with non-empty industries never finds the empty label |
| Classifiers.CascadeNonEmpty | reclassify_industry.py:11-32 | a cascade with non-empty industries never finds the empty label |
| Classifiers.TableReapply | improve_industry_v2.py:41-44 | a first-match classifier keeps its label when re-run on its own output text |
| Classifiers.RelabelRows | reclassify_industry.py:40-42 | every row is written, in order, with only `industry` set to the classifier's label |
| Classifiers.ClassifyByKeywordsSpec | reclassify_industry.py:8-33 | the label is never empty: the first rule whose keyword occurs in description, name and industry (comma-joined, lower-cased) decides, else the current industry or "その他医療関連" |
| Classifiers.ReclassifyUpperIT | reclassify_industry.py:9-16 | an upper-case "IT" in the description is lowered and so always ends the cascade by the third rule at the latest |
| Classifiers.ReclassifyRows | reclassify_industry.py:40-42 | the row loop writes every row with its `classify_by_keywords` label |
| Classifiers.ImproveItFirst | improve_industry.py:12-13 | any IT word in name or description gives "医療IT・医療データ", whatever else occurs |
| Classifiers.ImproveLogisticsFirst | improve_industry.py:20-23 | when no earlier rule fires, "物流" gives "医療物流" even when "流通" also occurs |
| Classifiers.ImproveIdempotent | improve_industry.py:8-30 | re-running `classify` on its output row gives the same label |
| Classifiers.ImproveRows | improve_industry.py:37-39 | the row loop writes every row with its `classify` label |
| Classifiers.TableClassifySpec | improve_industry_v2.py:36-44 | a first-match classifier returns the industry of the first key found, else the current industry or "その他医療関連" |
| Classifiers.ClassifyV2Idempotent | improve_industry_v2.py:36-44 | re-running on the output gives the same label, the industry column not being matched |
| Classifiers.ClassifyV2Rows | improve_industry_v2.py:51-53 | the row loop writes every row with its `classify` label |
| Classifiers.ClassifyV3MedicalIT | improve_industry_v3.py:21-30 | "医療it" anywhere in the joined text decides "医療IT・医療データ" |
| Classifiers.ClassifyV3Idempotent | improve_industry_v3.py:21-31 | re-running `classify_row` on its output gives the same label |
| Classifiers.V3LabelsNonEmpty | improve_industry_v3.py:28-30 | no industry of the v3 map is empty |
| Classifiers.MetaTextIgnoresIndustry | improve_industry_v3.py:22-27 | the matched text reads name, description, raw keywords and raw domains, never the industry |
| Classifiers.ClassifyV3Rows | improve_industry_v3.py:38-40 | the row loop writes every row with its `classify_row` label |
| Classifiers.RelabelOther | apply_keyword_map_extension.py:40-45 | only a row whose stripped industry is "その他医療関連" and that has a non-empty suggestion changes, and only in `industry` |
| Classifiers.RelabelFirstMatch | apply_keyword_map_extension.py:23-28 | a relabelled row gets the industry of the first map token found in the text |
| Classifiers.ExtendRowSpec | apply_keyword_map_extension.py:39-46 | a row changes only when labelled "その他医療関連", and then to the industry of the first token of the extension map found in description, raw keywords and raw domains |
| Classifiers.ExtendIgnoresName | apply_keyword_map_extension.py:42 | the company name plays no part: changing it commutes with the relabelling |
| Classifiers.RelabelCommutes | apply_keyword_map_extension.py:44-45 | relabelling commutes with writing any column other than `industry` |
| Classifiers.ExtendRows | apply_keyword_map_extension.py:39-46 | every row is written once, in input order, relabelled or not |
| Classifiers.SuggestionMapLookup | auto_apply_suggested_keywords.py:10-18 | a token is in `smap` exactly when some row offers it with a non-empty industry, and maps to the industry of the last such row |
| Classifiers.LoadSuggestions | auto_apply_suggested_keywords.py:14-18 | the loading loop builds `smap` from the suggestion rows |
| Classifiers.AutoApplyRowSpec | auto_apply_suggested_keywords.py:20-35 | with no suggestions nothing changes; a row changes only when labelled "その他医療関連", and then to the industry of the first `smap` token, in insertion order, found in its text |
| Classifiers.AutoApplyOne | auto_apply_suggested_keywords.py:32-35 | the loop body relabels one row as the model says |
| Classifiers.AutoApplyRows | auto_apply_suggested_keywords.py:31-36 | every row is written once, in input order |
| Descriptions.SliceTo | refine_templates_v2.py:30 | a Python slice `s[:n]` is a prefix of `s`, of length `n` when `0 <= n <= len(s)` |
| Descriptions.Shorten | refine_descriptions.py:8-11 | a text within the limit is unchanged; a longer one becomes its first `max_len - 1` characters and "…", exactly `max_len` long |
| Descriptions.ShortenIdempotent | refine_descriptions.py:8-11 | with a positive limit the result never exceeds the limit and shortening again changes nothing |
| Descriptions.Truncate45 | finalize_templates_and_scores.py:87-88 | `sd[:44] + "…"` above 45 characters is `shorten` with limit 45, so never longer than 45 |
| Descriptions.FitText | refine_templates_v2.py:23-31 | the fitted description is at most 45 characters |
| Descriptions.FitTextCases | refine_templates_v2.py:23-31 | under 30 stripped characters the industry's non-empty template replaces the text, 30 to 45 keep the stripped text, above 45 it is cut to 44 and "…" |
| Descriptions.FinalTemplatesWellFormed | finalize_templates_and_scores.py:9-20 | every finalising template is non-empty, has no surrounding whitespace and is at most 45 characters long |
| Descriptions.RefineTemplatesWellFormed | refine_templates_v2.py:8-18 | every refining template is well formed in the same sense |
| Descriptions.PipelineTemplatesWellFormed | run_pipeline.py:198-203 | the four pipeline templates are well formed in the same sense |
| Descriptions.FitTextIdempotent | refine_templates_v2.py:23-31 | with well-formed templates, fitting a fitted description changes nothing |
| Descriptions.PipelineFill | run_pipeline.py:227-229 | a description under 30 characters whose industry has a template becomes the template; any other stays as it is |
| Diagnosis.BlockSumCounts | diagnosis/diagnosis_core.py:27-36 | a block score counts the questions of its block answered exactly 1, so it is at most the block size |
| Diagnosis.BlockSumLocal | diagnosis/diagnosis_core.py:27-36 | a block score reads only the answers to the questions of its block |
| Diagnosis.Diagnose | diagnosis/diagnosis_core.py:20-80 | the four block scores count the "yes" answers of questions 1-5, 6-10, 11-15 and 16-20; type, stop level and summary label follow from them |
| Diagnosis.ClassifyRules | diagnosis/diagnosis_core.py:38-56 | each thinking type holds exactly on the scores no earlier rule claims: hybrid for C and D at least 3, side job, career shift, undifferentiated, else the wavering hybrid |
| Diagnosis.HybridLabelsDiffer | diagnosis/diagnosis_core.py:38-56 | the two hybrid outcomes share the type and differ in the label |
| Diagnosis.StopRules | diagnosis/diagnosis_core.py:58-67 | the stop level is low for B at most 1, medium for 2 or 3, high for 4 or more |
| Diagnosis.DiagnoseReadsOnlyQuestions | diagnosis/diagnosis_core.py:27-36 | answers to keys outside 1-20, and values other than 1, do not change the diagnosis |
| Diagnosis.AllNo | diagnosis/diagnosis_core.py:54-61 | with no "yes" answer the result is the wavering hybrid with a low stop level |
| Diagnosis.ExampleAllButB | diagnosis/diagnosis_core.py:38-41 | A, C and D all "yes" and B all "no" give the primary hybrid with a low stop level |
| Diagnosis.ExampleSideJobHigh | diagnosis/diagnosis_core.py:42-44 | B all "yes" and three of C give the side-job type with a high stop level |
| Diagnosis.SideJobHighText | diagnosis/diagnosis_core.py:69 | the summary label joins the two labels with " × " |
| Dicts.Lookup | apply_manual_map.py:24 | `d.get(k)` is absent exactly when `k` is not a key |
| Dicts.Put | apply_manual_map.py:15 | `d[k] = v` keeps keys distinct, keeps an existing key in its place or appends a new one, makes `k` find `v` and leaves every other key's value alone |
| Dicts.LookupReplaced | apply_manual_map.py:15 | overwriting the value of an existing key keeps the key order and changes only what that key finds |
| Dicts.LookupAppended | apply_manual_map.py:15 | adding a fresh key appends it and changes nothing that other keys find |
| Dicts.LookupAt | apply_manual_map.py:24 | with distinct keys the entry at each position is what a lookup of its key returns |
| Dicts.Increment | analyze_keywords_and_suggest_map.py:20 | `counter[t] += 1` keeps the keys distinct |
| Dicts.IncrementLookup | analyze_keywords_and_suggest_map.py:20 | an increment raises the count of its key by one, starting from 0, and leaves every other count |
| Dicts.FromEntries | apply_manual_map.py:12-15 | the dictionary filled line by line has distinct keys |
| Dicts.FromEntriesStep | apply_manual_map.py:12-15 | one more accepted line sets its key; a skipped line changes nothing |
| Dicts.FromEntriesKeys | apply_manual_map.py:12-15 | a key is present iff some accepted line offers it |
| Dicts.FromEntriesLast | apply_manual_map.py:12-15 | a key repeated in the file holds the value of one of its lines (the last) |
| Dicts.FromEntriesKeepsPosition | apply_manual_map.py:15 | re-assigning a key does not move it in iteration order |
| Dicts.FromEntriesLookup | apply_manual_map.py:12-15 | the value found for a key is that of the last accepted line for it, and none if no line offers it |
| Dicts.LoadEntries | apply_manual_map.py:12-15 | the loading loop yields exactly the dictionary `FromEntries` describes |
| Dicts.TotalUpdate | summary_report.py:23-29 | changing one count changes the sum of the counts by the difference |
| Dicts.IncrementTotal | summary_report.py:26-29 | each increment adds exactly one to the sum of the counts |
| KeywordAnalysis.CleanTokens | analyze_keywords_and_suggest_map.py:19 | stripping, lowering and dropping blank pieces never yields more tokens than pieces |
| KeywordAnalysis.CleanPiece | analyze_keywords_and_suggest_map.py:19 | a non-blank piece without separators becomes a clean token: non-empty, lower-case, no separator, no surrounding whitespace |
| KeywordAnalysis.CleanTokensClean | analyze_keywords_and_suggest_map.py:19 | pieces free of separators give only clean tokens |
| KeywordAnalysis.TokensClean | analyze_keywords_and_suggest_map.py:19 | whatever a cell holds, every token taken from it is clean |
| KeywordAnalysis.TokensSingle | analyze_keywords_and_suggest_map.py:19 | a cell holding one keyword gives that keyword stripped and lowered, a blank cell gives no token |
| KeywordAnalysis.CleanTokensConcat | analyze_keywords_and_suggest_map.py:19 | cleaning distributes over concatenation of the piece lists |
| KeywordAnalysis.TokensJoin | analyze_keywords_and_suggest_map.py:19 | a cell `a,b` or `a;b` gives the tokens of `a` then those of `b`, so `;` and `,` separate alike |
| KeywordAnalysis.RowTokensClean | analyze_keywords_and_suggest_map.py:16-19 | every token of a row's keyword and domain cells is clean |
| KeywordAnalysis.AllTokensClean | analyze_keywords_and_suggest_map.py:14-20 | every token counted over the whole file is clean |
| KeywordAnalysis.TallyFrom | analyze_keywords_and_suggest_map.py:19-20 | counting into a counter keeps its keys distinct |
| KeywordAnalysis.TallyFromAppend | analyze_keywords_and_suggest_map.py:14-20 | counting `a + b` is counting `a` and then `b` |
| KeywordAnalysis.Tally | analyze_keywords_and_suggest_map.py:9-20 | the `Counter` has distinct keys |
| KeywordAnalysis.TallySnoc | analyze_keywords_and_suggest_map.py:20 | counting one more token is one increment of its count |
| KeywordAnalysis.TallyCounts | analyze_keywords_and_suggest_map.py:9-20 | the counter holds exactly the tokens seen, each with its number of occurrences |
| KeywordAnalysis.Distinct | analyze_keywords_and_suggest_map.py:9-20 | the first-occurrence list holds exactly the elements of its input |
| KeywordAnalysis.TallyKeys | analyze_keywords_and_suggest_map.py:9-20 | the counter's keys are the distinct tokens in order of first occurrence |
| KeywordAnalysis.DistinctOrder | analyze_keywords_and_suggest_map.py:9-20 | each listed token first occurs before the next one listed |
| KeywordAnalysis.TallyTotal | analyze_keywords_and_suggest_map.py:9-20 | the counts add up to the number of tokens |
| KeywordAnalysis.TallyFromTally | analyze_keywords_and_suggest_map.py:14-20 | counting more tokens into the counter of `a` gives the counter of `a + b` |
| KeywordAnalysis.CountCell | analyze_keywords_and_suggest_map.py:19-20 | the innermost loop counts each token of one cell into the counter |
| KeywordAnalysis.CountRow | analyze_keywords_and_suggest_map.py:16-20 | the loop over the keyword cell then the domain cell counts the row's tokens |
| KeywordAnalysis.CountTokens | analyze_keywords_and_suggest_map.py:9-20 | the reading loop leaves the counter of all tokens in file order |
| KeywordAnalysis.MostCommonAll | analyze_keywords_and_suggest_map.py:26 | `most_common()` lists every entry of the counter |
| KeywordAnalysis.MostCommonEntries | analyze_keywords_and_suggest_map.py:26-27 | every frequency line is a token of the data with its exact count |
| KeywordAnalysis.MostCommonComplete | analyze_keywords_and_suggest_map.py:26-27 | every token of the data has a frequency line with its count, and no token has two |
| KeywordAnalysis.MostCommonSorted | analyze_keywords_and_suggest_map.py:26 | the frequency lines run from the highest count down |
| KeywordAnalysis.MostCommonTies | analyze_keywords_and_suggest_map.py:26 | tokens with equal counts keep the order in which they first appeared |
| KeywordAnalysis.FrequenciesEntries | analyze_keywords_and_suggest_map.py:23-27 | each line of the frequency file is a clean token with its exact count |
| KeywordAnalysis.Suggestions | analyze_keywords_and_suggest_map.py:40-45 | at most one suggestion per ranked token |
| KeywordAnalysis.SuggestionsFrom | analyze_keywords_and_suggest_map.py:40-45 | every suggestion comes from a ranked entry, with the industry of the first hint (in dictionary order) the token contains |
| KeywordAnalysis.SuggestionsComplete | analyze_keywords_and_suggest_map.py:40-45 | every ranked token containing some hint word is suggested |
| KeywordAnalysis.SuggestionsSorted | analyze_keywords_and_suggest_map.py:40-45 | suggestions keep the descending count order of the ranking |
| KeywordAnalysis.HintIT | analyze_keywords_and_suggest_map.py:30-31 | because "it" is the first hint, any token containing "it" is suggested as medical IT |
| KeywordAnalysis.SuggestAll | analyze_keywords_and_suggest_map.py:40-45 | the suggestion loop with its `break` yields exactly `Suggestions` |
| KeywordAnalysis.Analyze | analyze_keywords_and_suggest_map.py:9-45 | the script produces the frequency list and the suggestion list of its input |
| KeywordAnalysis.AnalysisSuggestions | analyze_keywords_and_suggest_map.py:14-45 | every suggestion names a clean token of the data with its exact count, most frequent first |
| Master.InferFromRange | build_companies_master.py:9-42 | `infer_industry` never returns ""; when some rule fires the result is a rule's label, otherwise the stripped domain or "その他医療関連" |
| Master.LabelsNonEmpty | build_companies_master.py:14-37 | every label of the cascade is non-empty |
| Master.InferFirstRuleWins | build_companies_master.py:14-21 | rules are tried in order: text naming both 検査 and 介護 gives 医療機器メーカー |
| Master.SentenceInSpec | build_companies_master.py:45-71 | the sentence found is that of the first entry filed under the industry; none found gives the default sentence |
| Master.ShortDescriptionCases | build_companies_master.py:45-71 | each of the twelve inferred industries gets its own sentence and every other value the default |
| Master.SentencesAligned | build_companies_master.py:14-37 | the sentence table lists the industries of the cascade in the same order |
| Master.SentencesDistinct | build_companies_master.py:45-69 | no industry has two sentences |
| Master.Names | build_companies_master.py:82 | one stripped name per raw row |
| Master.DedupNamed | build_companies_master.py:80-86 | the de-duplicated companies have distinct, kept names taken from the rows |
| Master.DedupFirst | build_companies_master.py:80-86 | a kept name is bound to the first row that carries it |
| Master.DedupKeys | build_companies_master.py:80-86 | a name is in the master iff it is non-empty, not a repeated header, and some row carries it |
| Master.DedupStep | build_companies_master.py:81-86 | one more row adds its name exactly when it is kept and new |
| Master.DedupRows | build_companies_master.py:80-86 | the loop filling the `OrderedDict` yields exactly `Dedup` |
| Master.MasterScoreFallback | build_companies_master.py:115-119 | the score is the total score, else the keyword count, else 0, parsed as an integer with 0 for a malformed value |
| Master.MasterRecord | build_companies_master.py:111-135 | the record carries the given id and name |
| Master.Lines | build_companies_master.py:111 | one output line per unique company |
| Master.LinesAt | build_companies_master.py:111 | line `i` is built from the `i`-th entry with number `i + 1` |
| Master.MasterLinesNumbered | build_companies_master.py:111-136 | ids run 1, 2, … in order, and ids and names are distinct across lines |
| Master.WriteMaster | build_companies_master.py:107-136 | the writing loop yields exactly `MasterLines` |
| Master.MasterNames | build_companies_master.py:80-86 | every master entry names a kept company and is what a lookup of its name finds |
| Merges.TemplateEntries | apply_manual_map.py:12-15 | one candidate entry per template line |
| Merges.ApplyManualMap | apply_manual_map.py:8-26 | one output row per master row, in order, each being that row with the manual map applied |
| Merges.MapRowSpec | apply_manual_map.py:22-26 | a row whose stripped id maps to a non-empty industry gets that industry and nothing else changes; any other row is written unchanged |
| Merges.TemplateEntryOffers | apply_manual_map.py:13-15 | a template line offers an id exactly when its stripped id is that non-empty id |
| Merges.MappingKeys | apply_manual_map.py:8-15 | the map holds an id iff it is non-empty and some template line carries it after stripping |
| Merges.MappingLast | apply_manual_map.py:12-15 | the industry mapped for an id is the stripped industry of the last template line with that id |
| Merges.NoTemplateNoChange | apply_manual_map.py:8-9 | without a template file every row is written as read |
| Merges.LaterEmptyLineCancels | apply_manual_map.py:15 | a later template line with an empty industry cancels an earlier mapping of the same id |
| Merges.ExistingEntries | apply_high_confidence_map.py:16-17 | one entry per line of the existing template |
| Merges.TemplateLine | apply_high_confidence_map.py:28 | a template line has exactly the id, name and forced-industry columns with the given values |
| Merges.RebuildTemplate | apply_high_confidence_map.py:9-30 | no suggestion file stops the script; otherwise the result is the loop's lines over the existing template |
| Merges.RebuiltSpec | apply_high_confidence_map.py:22-30 | a line without id is skipped; an unreadable confidence stops the script; confidence ≥ 0.8 with a suggestion writes the suggestion; otherwise a non-empty existing entry is kept; else nothing |
| Merges.ToWriteFromSuggestions | apply_high_confidence_map.py:20-30 | every written line comes from a suggestion line with the same non-empty id and carries a non-empty industry |
| Merges.ToWriteLength | apply_high_confidence_map.py:20-30 | the rebuilt template never holds more lines than there are suggestions |
| Merges.MetaEntries | merge_raw_metadata.py:13-21 | one candidate entry per raw line |
| Merges.MetaCells | merge_raw_metadata.py:31-33 | the three metadata cells are distinct columns, exactly the appended ones |
| Merges.MergeRowSpec | merge_raw_metadata.py:28-34 | a master row keeps its cells and gains the three metadata cells of its name key, or three empty cells when the key is unknown |
| Merges.MetaEntryOffers | merge_raw_metadata.py:14-16 | a raw line offers a key exactly when its stripped, lowered name is that non-empty key |
| Merges.MetaKeys | merge_raw_metadata.py:10-21 | a key has metadata iff it is non-empty and some raw line carries it; the empty key never does |
| Merges.MetaLast | merge_raw_metadata.py:17-21 | the metadata of a key comes from the last raw line with that key |
| Merges.MetaTotalFallback | merge_raw_metadata.py:20 | the total is the raw total score, else the keyword count |
| Merges.MergeRawMetadata | merge_raw_metadata.py:10-34 | the header gains the three columns, and every master row is joined once, in order |
| Pipelines.KeywordMapOf | run_pipeline_full.py:29-40 | every label of each variant's keyword table is non-empty |
| Pipelines.DefaultScoreSpec | run_pipeline_full.py:94-95 | defaulting adds the score column and changes no other cell; a non-empty score is kept; the score is left empty only by `run_all_pipeline.py`, and only when the cell is present and empty |
| Pipelines.DefaultAll | run_pipeline_full.py:94-95 | every row goes through the defaulting loop, in order |
| Pipelines.SortKeys | run_pipeline_full.py:98 | the sort keys exist exactly when every score is an integer, and then they are the rows' scores |
| Pipelines.SplitRows | run_pipeline_full.py:84-100 | a successful split keeps the number of rows of a non-empty input |
| Pipelines.SplitErrors | run_pipeline_full.py:85-102 | the split stops exactly on an empty input or a score `int` rejects |
| Pipelines.SplitShape | run_pipeline_full.py:98-100 | at most 100 rows on top, and top plus others rearrange the defaulted rows |
| Pipelines.SplitSorted | run_pipeline_full.py:98 | the companies run from the highest score down |
| Pipelines.SplitStable | run_pipeline_full.py:98 | the split is the stable descending sort: equal scores keep the input order |
| Pipelines.OthersIndexError | run_pipeline_full.py:102 | as written, a run over 1 to 100 companies stops when the others file is written |
| Pipelines.OthersHeaderSpec | run_all_pipeline.py:71-72 | with the others file guarded, its header is the columns of some defaulted row, agrees with the unguarded header where that one exists, and the unguarded form fails only at 100 rows or fewer |
| Pipelines.SuggestAll | run_pipeline_full.py:112-122 | one suggestion per company, in split order |
| Pipelines.SuggestRowSpec | run_pipeline_full.py:59-71 | a suggestion carries the row's id and the votes of the lowered text; it names an industry iff some keyword hit; confidence ≥ 0.6 iff two hits or more; an industry with confidence ≥ 0.8 iff three hits or more |
| Pipelines.Prefill | run_pipeline_full.py:147-156 | the prefill never lists more lines than there are suggestions |
| Pipelines.PrefillMember | run_pipeline_full.py:148-149 | the prefill lists exactly the suggestions naming an industry with confidence 0.6 or more |
| Pipelines.PrefillVotes | run_pipeline_full.py:148-149 | for the pipeline's own suggestions the prefill holds exactly the companies with two votes or more |
| Pipelines.KeptPieces | run_pipeline_full.py:125-128 | stripping and dropping blank pieces never yields more tokens than pieces |
| Pipelines.LowerAll | run_pipeline_full.py:60 | lower-casing is element-wise |
| Pipelines.KeptPiecesLowered | run_pipeline_full.py:125-128 | the pipeline counts the same pieces as the keyword analysis, only not lower-cased |
| Pipelines.RawTokensLowered | run_pipeline_full.py:124-128 | lower-casing a cell's pipeline tokens gives its keyword-analysis tokens |
| Pipelines.KeptPiecesStripped | run_pipeline_full.py:126-127 | every counted token is non-empty and carries no surrounding whitespace |
| Pipelines.PipelineFrequenciesSpec | run_pipeline_full.py:132-136 | each frequency line is a token with its exact count, counts never increase down the file, and every token has a line |
| Pipelines.ManualEntries | run_pipeline_full.py:170-173 | one candidate entry per template line |
| Pipelines.LoadManualMap | run_pipeline_full.py:169-173 | the template loop yields exactly `ManualMap` |
| Pipelines.ManualMapSpec | run_pipeline_full.py:169-173 | an id is mapped iff some template line offers it, and it maps to the industry of the last such line |
| Pipelines.ManualMapPaddedId | run_pipeline_full.py:171-173 | an id with surrounding whitespace is never found, because the keys are stripped and the lookup id is not |
| Pipelines.FirstIndexFor | run_pipeline_full.py:188 | the position found is that of the first suggestion for the id; none when no suggestion has it |
| Pipelines.ApplicableSuggestion | run_pipeline_full.py:189 | a pipeline suggestion is applied exactly when it had three votes or more |
| Pipelines.SuggestAllFor | run_pipeline_full.py:112-122 | the suggestion loop makes one applicable-iff-three-votes suggestion per row, carrying its id |
| Pipelines.OwnSuggestion | run_pipeline_full.py:188 | the suggestion found for a row's id comes from that row or an earlier row with the same id |
| Pipelines.OverrideRowFrame | run_pipeline_full.py:178-192 | only the industry cell can change, it changes only when a source applies, and the manual map applies iff it holds the id |
| Pipelines.OverrideSpec | run_pipeline_full.py:178-192 | the manual industry wins; otherwise the first suggestion for the id applies with three votes or more; otherwise the row is unchanged |
| Pipelines.LogSnoc | run_pipeline_full.py:193-201 | the log over one more company is the log so far and that company's line |
| Pipelines.AutoSnoc | run_pipeline_full.py:192 | the rows over one more company are the rows so far and that company's row |
| Pipelines.LogConf | run_pipeline_full.py:193-201 | corrected log: a manual line has no confidence, an automatic line has its own confidence of 0.8 or more |
| Pipelines.LogAsWrittenDiffers | run_pipeline_full.py:200 | the log as written has the same lines as the corrected one, differing at most in the confidence of manual lines |
| Pipelines.StaleConfidence | run_pipeline_full.py:200 | as written, a manual line after an automatic one logs the earlier company's confidence |
| Pipelines.OverrideStep | run_pipeline_full.py:178-201 | one pass of the override loop yields that row's override and log line |
| Pipelines.ApplyOverrides | run_pipeline_full.py:176-201 | the override loop yields the overridden rows and the corrected log |
| Pipelines.Finish | run_pipeline_full.py:253-270 | the final writes set the five scores to text that reads back as the given scores, set the background, fill the template when there is one, and touch no other column |
| Pipelines.FinalRow | run_pipeline_full.py:249-271 | the final step keeps the industry and every unwritten column |
| Pipelines.FinalRowSpec | run_pipeline_full.py:249-271 | each score reads back as `recompute` of the row's score and industry, the background is the industry's, the description is filled by the template rule, and nothing else changes |
| Pipelines.AutoRows | run_pipeline_full.py:176-192 | one overridden row per company, in order |
| Pipelines.FinalRows | run_pipeline_full.py:248-271 | one final row per overridden row, in order |
| Pipelines.SuggestLoop | run_pipeline_full.py:112-122 | the suggestion loop yields exactly `SuggestAll` |
| Pipelines.FinalLoop | run_pipeline_full.py:248-271 | the finalising loop yields exactly `FinalRows` |
| Pipelines.Pipeline | run_pipeline_full.py:74-274 | the script, loop by loop, yields exactly `Run`, the run with the two defects under Findings corrected: the others header is guarded and manual log lines carry no confidence |
| Pipelines.RunErrors | run_pipeline_full.py:84-102 | the corrected run stops exactly on an empty input or a score `int` rejects; the script as written also stops for 1 to 100 companies (`Pipelines.OthersIndexError`) |
| Pipelines.RunFinal | run_pipeline_full.py:94-274 | a run keeps every company once: the split rearranges the defaulted rows, each is overridden from the manual map and its suggestion, then finalised |
| RecruitParser.Found | legacy/recruit_parser.py:30 | the keywords found are never more than the keywords listed |
| RecruitParser.FoundMember | legacy/recruit_parser.py:30 | a keyword is a hit exactly when it is listed and the text contains it |
| RecruitParser.FoundOrder | legacy/recruit_parser.py:30 | hits keep the order of the keyword list |
| RecruitParser.FoundFrom | legacy/recruit_parser.py:30 | every hit sits somewhere in the keyword list |
| RecruitParser.MedicalScoreSpec | legacy/recruit_parser.py:29-44 | the hits are the listed keywords the text contains, the count is their number, and the score is 1 up to one hit, 2 for 2–4, 3 for 5–8, 4 for 9–14, 5 from 15, growing with the count |
| RecruitParser.DomainNamesDistinct | legacy/recruit_parser.py:51-79 | the seven domain names differ from each other |
| RecruitParser.DomainScores | legacy/recruit_parser.py:83-88 | only domains with a hit are scored, never more than there are domains |
| RecruitParser.DomainScoresFrom | legacy/recruit_parser.py:85-88 | each score entry is a table domain with its hit count, in table order |
| RecruitParser.DomainScoresHas | legacy/recruit_parser.py:85-88 | every table domain with a hit has a score entry |
| RecruitParser.CollectDomainScores | legacy/recruit_parser.py:83-88 | the loop filling `domain_scores` yields exactly `DomainScores` |
| RecruitParser.NamesWith | legacy/recruit_parser.py:95 | the names kept are never more than the entries |
| RecruitParser.NamesWithFrom | legacy/recruit_parser.py:95 | every kept name comes from an entry with the top count, in list order |
| RecruitParser.NamesWithHas | legacy/recruit_parser.py:95 | every entry with the top count gives a kept name |
| RecruitParser.ClassifyMedicalDomain | legacy/recruit_parser.py:82-97 | the function returns the positive domain scores and the top domains computed from them |
| RecruitParser.SortedHead | legacy/recruit_parser.py:93-94 | the first entry of the sorted list has the largest count |
| RecruitParser.TopDomainsEmpty | legacy/recruit_parser.py:90-91 | there are top domains exactly when some domain has a hit |
| RecruitParser.TopDomainsMember | legacy/recruit_parser.py:93-95 | a domain is among the top domains exactly when its count is the largest |
| RecruitParser.TopDomainsOrder | legacy/recruit_parser.py:93-95 | the top domains keep the table order, since the stable sort keeps it among equal counts |
| RecruitParser.DomainScoresDistinct | legacy/recruit_parser.py:83-88 | no domain is scored twice |
| RecruitParser.ClassifyMedicalDomainSpec | legacy/recruit_parser.py:82-97 | every domain with a hit is scored, all scores are positive, no top domain iff no hit, and the top domains are exactly those with the largest count |
| RecruitParser.RoleHitsMember | legacy/recruit_parser.py:131-134 | a role keyword is hit exactly when some category lists it and the text contains it |
| RecruitParser.Dedup | legacy/recruit_parser.py:136 | `dict.fromkeys` keeps each element once, in order of first occurrence |
| RecruitParser.MatchWords | legacy/recruit_parser.py:132-134 | the inner loop appends the category's words found in the text |
| RecruitParser.CollectRoleHits | legacy/recruit_parser.py:131-134 | the outer loop appends the hits of every category in turn |
| RecruitParser.ExtractMedicalRoles | legacy/recruit_parser.py:128-136 | the function returns the de-duplicated hits of all categories |
| RecruitParser.ExtractMedicalRolesSpec | legacy/recruit_parser.py:128-136 | a role is returned iff some category lists it and the text contains it; roles are distinct and in order of first hit |
| RecruitParser.RoleScore | legacy/recruit_parser.py:154-167 | the role score is the number of roles, capped at five |
| RecruitParser.Weight | legacy/recruit_parser.py:143-151 | a domain weighs at most 3 |
| RecruitParser.BestWeight | legacy/recruit_parser.py:171-173 | the best weight is at most 3 |
| RecruitParser.BestWeightSpec | legacy/recruit_parser.py:171-173 | the best weight bounds every domain's weight and is 0 or the weight of one of them |
| RecruitParser.CalculateTotalScore | legacy/recruit_parser.py:170-183 | the total is 15 × medical score + 10 × best domain weight + 12 × role score |
| RecruitParser.TotalScoreBounds | legacy/recruit_parser.py:170-183 | for a medical score from `calculate_medical_score` the total lies between 15 and 165 |
| RecruitParser.WeightSpec | legacy/recruit_parser.py:143-151 | a domain outside the table weighs nothing; a table domain weighs 1 to 3 |
| Reports.Normalize | summary_report.py:14-17 | the read loop rewrites only the score cell, to the printed integer `int` reads from it (0 on failure), and the score reads back unchanged |
| Reports.NormalizeIdempotent | summary_report.py:14-17 | normalizing a row twice is normalizing it once |
| Reports.NormalizedRows | summary_report.py:10-18 | one normalized row per input row, in order |
| Reports.ReadRows | export_top100.py:8-16 | the read loop of both scripts yields exactly `NormalizedRows` |
| Reports.ScoreKeys | summary_report.py:40 | the sort keys are the rows' scores |
| Reports.TopByScoreSpec | summary_report.py:40-47 | the top list has min(100, n) rows taken from the input by the ranking, scores never rise, ties keep input order, every row left out scores no higher than any row kept, and no row appears more often than in the input |
| Reports.IndustryLabels | summary_report.py:21 | one label per row: its industry, or "その他" when absent or empty |
| Reports.IndustryCountsSpec | summary_report.py:21 | each label is counted with its number of rows, no empty label is counted, and the counts add up to the number of rows |
| Reports.IndustryRankingSpec | summary_report.py:33-34 | the industry section lists each label once with its count, counts not rising |
| Reports.BucketSpec | summary_report.py:25-29 | the buckets are the score ranges 80 and up, 50–79, 20–49 and below 20 |
| Reports.BucketLabels | summary_report.py:24-29 | one bucket label per row, from its score |
| Reports.CountBuckets | summary_report.py:23-29 | the bucket loop yields exactly `Buckets` |
| Reports.CountFour | summary_report.py:26-29 | labels drawn from the four buckets are counted once each across them |
| Reports.BucketsPartition | summary_report.py:23-29 | each bucket holds its exact count, no other label appears, and the four counts add up to the number of rows |
| Reports.SummaryReport | summary_report.py:10-47 | the script computes the industry counts, their ranking, the buckets and the top 100 of the read rows |
| Reports.Project | export_top100.py:24 | a projected line has exactly the listed columns, each holding the row's cell or "" |
| Reports.ExportTop100 | export_top100.py:8-24 | one exported line per top-100 row, in order |
| Reports.ExportLineSpec | export_top100.py:19-24 | an exported line has the seven columns, each the row's cell, with the score printed as the integer read |
| Reports.ExtractOthers | extract_others.py:13-22 | the loop writes exactly the projected rows whose stripped industry is "その他医療関連", in order |
| Reports.ExtractOthersSpec | extract_others.py:13-22 | each written line comes from an "その他医療関連" row, in input order, and holds the six columns with that row's cells |
| Reports.ExtractOthersComplete | extract_others.py:14-22 | every row whose stripped industry is "その他医療関連" is written |
| Scoring.Half | compute_scores.py:71 | `int((s + c) / 2)` is the floor of half a non-negative sum |
| Scoring.Clamp | compute_scores.py:41 | `max(10, min(90, base))` lies in [10, 90] and leaves a base already in range |
| Scoring.Adjust | compute_scores.py:39-40 | −10 from relevance 80, +10 up to relevance 10, unchanged in between |
| Scoring.FitMonotone | compute_scores.py:8-26 | the side-job fit and learning growth never fall, and the career-shift fit never rises, as relevance grows |
| Scoring.FitBuckets | compute_scores.py:8-20 | the fit tables bucket by bucket, each edge in the higher bucket, and the hybrid score is 52, 57 or 60 |
| Scoring.RiskBase | compute_scores.py:30-37 | the industry base is 30, 40, 45 or 50 |
| Scoring.RiskLevel | compute_scores.py:28-41 | the risk level is the adjusted base and always lies in [20, 60], so the clamp never changes it |
| Scoring.EmptyIndustryBackground | compute_scores.py:43-52 | an empty industry gets the default background |
| Scoring.ComputeScores | compute_scores.py:63-73 | the five scores of one row: both fits and the learning growth from their tables, the hybrid their half-sum, the risk level from relevance and industry |
| Scoring.RiskBaseSeqPriority | finalize_templates_and_scores.py:36-39 | the sequential `if`s make 医療IT win over 製薬/バイオ, which wins over 医療機器 |
| Scoring.RiskBasesDiffer | finalize_templates_and_scores.py:36-39 | on an industry naming both 医療機器 and 医療IT the two risk rules disagree (40 against 30) |
| Scoring.Recompute | finalize_templates_and_scores.py:23-43 | `recompute_scores`: the bucket table with edges 85/65/40/15, a hybrid of 55, 57 or 60, and a risk level in [20, 60] from the sequential base |
| Scoring.RecomputeEdges | finalize_templates_and_scores.py:25-41 | edge values fall in the higher bucket; 80 already lowers the risk and 10 already raises it |
| Scoring.Rescale | rescale_scores.py:29-61 | the rescaling loop uses the same fit table, its own learning-growth table, and a risk level in [20, 60] |
| Scoring.RescaleVersusRecompute | rescale_scores.py:34-61 | away from the lower-case "医療it" the rescaling loop agrees with `recompute_scores` on every score except a learning growth of 45 instead of 50 for 20–49 |
| Scoring.FillProperties | fill_scores.py:8-39 | the fill script's two tables move in opposite directions and their half-sum is 50 or 55 |
| Scoring.ScoreCells | compute_scores.py:75-80 | six cells, one per score column in header order |
| Scoring.ScoreHeaderDistinct | compute_scores.py:58 | the six score columns are distinct |
| Scoring.ScoreCellsColumns | compute_scores.py:75-80 | the score cells write each score column exactly once |
| Scoring.WithScores | compute_scores.py:75-80 | the row gets the five printed scores and the background and nothing else changes |
| Scoring.ScoresReadBack | compute_scores.py:75-81 | the written scores read back as the numbers computed |
| Scoring.WithScoresTwice | compute_scores.py:75-80 | writing the same scores twice is writing them once |
| Scoring.ScoreColumnsExclude | compute_scores.py:58 | the score, industry and description columns are none of the six written columns |
| Scoring.WithDescribedScores | finalize_templates_and_scores.py:53-55 | a description and the six score cells written change only those seven columns |
| Scoring.DescribedScoresTwice | finalize_templates_and_scores.py:58-90 | writing the same description and scores twice is writing them once |
| ScoreScripts.AddMissingSpec | compute_scores.py:58-60 | the header is extended, never reordered; every listed field then occurs (once if it was missing) and no other column is added |
| ScoreScripts.EnsureHeader | compute_scores.py:58-60 | the header loop yields exactly `AddMissing` |
| ScoreScripts.ScoredRow | compute_scores.py:63-80 | a scored row differs from its input only in the six score columns |
| ScoreScripts.ScoredRowSpec | compute_scores.py:63-80 | the written scores read back as `ComputeScores` of the row's relevance and industry, the background is the industry's, and nothing else changes |
| ScoreScripts.ScoredRowIdempotent | compute_scores.py:63-80 | scoring a scored row again changes nothing |
| ScoreScripts.ComputeScoresFile | compute_scores.py:54-81 | the header gains the six columns it lacks and every row is scored, in order |
| ScoreScripts.FinalizedRow | finalize_templates_and_scores.py:58-90 | a finalised row differs only in the score columns and the description |
| ScoreScripts.FinalizedRowSpec | finalize_templates_and_scores.py:58-90 | the scores read back as `recompute_scores`, the background is the industry's, the description is fitted by the template rule and is at most 45 long, and nothing else changes |
| ScoreScripts.FinalizedRowIdempotent | finalize_templates_and_scores.py:58-90 | finalising a finalised row changes nothing |
| ScoreScripts.FinalizeFile | finalize_templates_and_scores.py:49-90 | the header gains the seven columns it lacks and every row is finalised, in order |
| ScoreScripts.FilledRow | fill_scores.py:31-39 | a filled row differs only in the three fit columns |
| ScoreScripts.FillCells | fill_scores.py:36-39 | three cells for the side-job, career-shift and hybrid columns |
| ScoreScripts.FillCellsColumns | fill_scores.py:36-39 | the fill cells write each of their three columns once |
| ScoreScripts.WriteFill | fill_scores.py:36-39 | the three printed scores are written, the hybrid being their half-sum, and nothing else changes |
| ScoreScripts.FilledRowSpec | fill_scores.py:31-39 | the written scores read back as the fill tables and their average, which is 50 or 55 |
| ScoreScripts.FilledRowIdempotent | fill_scores.py:31-39 | filling a filled row changes nothing |
| ScoreScripts.RescaledRow | rescale_scores.py:29-61 | a rescaled row differs only in the score and the five derived columns |
| ScoreScripts.RescaleCells | rescale_scores.py:32-61 | six cells: the scaled score, then the five scores, in write order |
| ScoreScripts.RescaleHeaderDistinct | rescale_scores.py:32-61 | the six rescaled columns are distinct |
| ScoreScripts.RescaleCellsColumns | rescale_scores.py:32-61 | the rescaling cells write each of their six columns once |
| ScoreScripts.WriteRescaled | rescale_scores.py:32-61 | the scaled score and the five printed scores are written and nothing else changes |
| ScoreScripts.RescaledRowSpec | rescale_scores.py:29-61 | the stored score reads back as the scaled one, the five scores as `Rescale` of it, and nothing else changes |
| ScoreScripts.RescaleFile | rescale_scores.py:19-61 | the script stops exactly on an empty file; otherwise every row is rescaled, in order |
| ScoreScripts.RefinedRowSpec | refine_templates_v2.py:23-39 | the stripped description is replaced by the industry template when shorter than 30 and a template exists, cut to 44 characters plus "…" when longer than 45, and no other column changes; the fitness industry has no template |
| ScoreScripts.NoFitnessTemplate | refine_templates_v2.py:8-18 | the template table has no entry for the fitness industry |
| ScoreScripts.RefinedRowIdempotent | refine_templates_v2.py:38-40 | refining a refined row changes nothing |
| ScoreScripts.ShortenedRowSpec | refine_descriptions.py:18-21 | a description up to 45 long is kept, a longer one is cut to 44 plus "…", a missing one becomes "", shortening again changes nothing, and no other column changes |
| Suggest.TablesLabelled | run_pipeline.py:92-103 | no keyword table of the pipelines or the generator has an empty label, and the tables have 25, 26 and 32 keywords |
| Suggest.NoAiLabelled | run_full_pipeline.py:73-84 | every label of the `run_full_pipeline.py` table is non-empty |
| Suggest.FullLabelled | run_pipeline_full.py:29-40 | every label of the `run_pipeline_full.py` table is non-empty |
| Suggest.HitsAreLabels | run_pipeline_full.py:61-64 | every vote is the label of a keyword found in the text |
| Suggest.SuggestSpec | run_pipeline_full.py:59-71 | the votes are those of the lowered text; an industry is proposed iff some keyword hit; it is the most voted, earliest first among ties; confidence is 0 without votes, at least 0.6 iff two votes, at least 0.8 iff three |
| Suggest.AutoThreshold | run_pipeline_full.py:189 | a proposal passes the 0.8 auto-apply threshold exactly when it had three votes or more |
| Suggest.ScoreSuggestionVersusPipeline | generate_manual_map_suggestions.py:23-36 | the generator proposes the same industry as the pipelines' voting but bases the confidence on the winner's own votes only, so it is never higher and equal when all votes agree |
| Suggest.LineOf | generate_manual_map_suggestions.py:49-55 | a suggestion line has exactly the five columns, with the given id, name and industry, the printed confidence and an empty note |
| Suggest.SuggestionLineSpec | generate_manual_map_suggestions.py:41-55 | a line carries the stripped id, an empty note, a confidence that reads back as the generator's, and an empty industry exactly when no keyword hit |
| Suggest.GenerateSuggestions | generate_manual_map_suggestions.py:57-64 | one line per company of the others file, then one per company of the top-100 file, each file skipped when absent |
| Selection.SafeIntReadsBack | select_and_pitch.py:43-47 | `safe_int` reads a printed integer back as itself and a printed two-decimal number as its integer part |
| Selection.SafeIntDefault | select_and_pitch.py:43-47 | text without a digit, the empty cell among them, makes `int(float(v))` raise and gives the default 0 |
| Selection.TopOfMultiset | select_and_pitch.py:116-117 | the top-20 cut keeps no candidate more often than the candidate list holds it |
| Selection.CandidatesComplete | select_and_pitch.py:108-114 | every input row meeting the medical, hybrid and risk thresholds is kept as a candidate |
| Selection.TopCandidatesSpec | select_and_pitch.py:108-117 | the top list is the first min(20, candidates) rows of the stable ranking: each a candidate from the input, from the highest medical score down, equal scores in input order, no row more often than among the candidates, and no candidate left out scoring above any kept one |
| Selection.SelectCandidates | select_and_pitch.py:108-117 | the candidate loop and the top-20 cut give the specified top list |
| Selection.SplitHead | select_and_pitch.py:133-134 | the first piece of a split is the text before the first separator |
| Selection.BaseUrlSpec | select_and_pitch.py:131-134 | the base URL never holds a comma: it is the stripped text before the site's first comma, or the whole site when it has none |
| Selection.CareerUrlsSpec | select_and_pitch.py:55-58 | nine URLs are tried: the normalised base without trailing slashes, then that root followed by each of the eight career paths in order; "https://" is put in front only of a base not starting with "http" |
| Selection.FirstAnswering | select_and_pitch.py:60-74 | the position found is that of a URL that answers, and no earlier URL answers; none is found only when no URL answers |
| Selection.FirstAnsweringAt | select_and_pitch.py:60-74 | a URL that answers when none before it does is the one found |
| Selection.TryUrls | select_and_pitch.py:60-74 | the request loop, HEAD first and GET after a 405, 403 or 400, stops at the first answering URL |
| Selection.CheckCareerUrls | select_and_pitch.py:49-74 | an empty base makes no request and has no jobs; a found URL is one of the career URLs and answers; no jobs means an empty URL |
| Selection.EnrichedSpec | select_and_pitch.py:135-143 | the enriched row changes only the two job columns; `has_open_jobs` is "1" or "0", "1" exactly when a careers page answered, with its URL, and "0" with an empty URL, always for an empty base |
| Selection.EnrichRow | select_and_pitch.py:131-143 | one step of the enrichment loop gives the specified enriched row |
| Selection.EnrichCandidates | select_and_pitch.py:128-143 | the enrichment loop enriches every top candidate, in order |
| Selection.SplitByJobs | select_and_pitch.py:151-152 | the with-jobs and without-jobs lists together hold every enriched row exactly once |
| Selection.SortedByMedicalSpec | select_and_pitch.py:153-154 | each sort keeps the rows and orders them by falling medical score |
| Selection.GroupPasses | select_and_pitch.py:151-154 | every row of a sorted group passes that group's filter |
| Selection.OrderedPermutation | select_and_pitch.py:151-154 | the ordering is a permutation of the enriched rows |
| Selection.OrderedJobsFirst | select_and_pitch.py:151-154 | every company with open positions comes before every company without |
| Selection.OrderedSorted | select_and_pitch.py:153-154 | within each group medical scores never rise |
| Selection.FinalThreeSize | select_and_pitch.py:155-158 | the final choice is the first min(3, enriched) ordered rows, so it is never empty when there were candidates |
| Selection.IndustryOfSpec | select_and_pitch.py:79 | the pitch shows the row's industry, or "業界情報なし" exactly when it is missing or empty |
| Selection.StrengthsDistinct | select_and_pitch.py:86-95 | the five strength lines differ from each other |
| Selection.StrengthLineSpec | select_and_pitch.py:86-95 | each strength line is chosen exactly when no earlier industry word occurs and its own word (医療IT, 医療機器, 介護, 製薬 or バイオ) does; the generic line when none does |
| Selection.IntNoBreak | select_and_pitch.py:84 | a printed score holds no line break |
| Selection.FixedTextsNoBreak | select_and_pitch.py:84-97 | the fixed texts of a pitch hold no line break |
| Selection.ReasonNoBreak | select_and_pitch.py:84 | the reason line has no line break when the industry has none |
| Selection.NextActionNoBreak | select_and_pitch.py:97 | the next-step line has no line break |
| Selection.StrengthNoBreak | select_and_pitch.py:86-95 | no strength line has a line break |
| Selection.JoinFour | select_and_pitch.py:98 | four lines without breaks, joined by line breaks, split back into the same four lines |
| Selection.PitchSpec | select_and_pitch.py:76-99 | a pitch is exactly four lines, company name stripped first, then the reason, the strength and the next step, when the name and industry hold no break |
| Selection.SelectAndPitch | select_and_pitch.py:101-168 | the run stops exactly when no row is a candidate; otherwise it enriches every top candidate, chooses one to three of them by the ordering and writes one pitch per chosen company |
| LineBot.LoadCompanySpec | main.py:33-43 | a loaded company has exactly the four score columns as integers, each the value of an all-digit cell and 0 for a missing or other cell, and keeps every other column as read |
| LineBot.CoercedReadsBack | main.py:39-42 | a score written as plain digits loads as its value; a missing score loads as 0 |
| LineBot.CoerceRow | main.py:33-43 | the inner coercion loop gives the specified loaded company |
| LineBot.LoadCompanies | main.py:26-46 | every row read becomes one loaded company, in order |
| LineBot.ScoreKeySpec | main.py:54-61 | each thinking type ranks by a score column of its own, one of the four loaded ones |
| LineBot.PickCompaniesSpec | main.py:64-69 | min(3, companies) are picked, from the highest score for the type down, ties in input order, and no company left out scores above a picked one |
| LineBot.HandleStart | main.py:97-103 | "診断" starts over: the user's answers become empty and question 1 is asked |
| LineBot.HandleNotStarted | main.py:106 | any other message from a user who has not started changes nothing and gets no reply |
| LineBot.HandleOtherText | main.py:111-120 | a message other than "診断", "はい" or "いいえ" changes nothing and asks for a yes or no |
| LineBot.NumberedNext | main.py:107-114 | storing the answer under the next question number keeps the answers numbered 1 to k, one more of them |
| LineBot.HandleAnswer | main.py:106-129 | before the twentieth answer, "はい" stores 1 and "いいえ" stores 0 under the next question number, and the question after it is asked |
| LineBot.HandleLastAnswer | main.py:131-155 | the twentieth answer diagnoses all twenty answers, recommends the top three companies for the diagnosed type and removes the user's entry |
| LineBot.HandleOthersUnchanged | main.py:92-156 | no message changes another user's answers |
| LineBot.HandlePreserves | main.py:92-156 | between messages every user holds answers to questions 1 to k, k at most nineteen |
| LineBot.ReplayCollects | main.py:92-129 | after "診断", each of up to nineteen yes-or-no answers adds exactly one stored answer |
| LineBot.Recommendation | main.py:131-139 | the recommendation is the diagnosis of the answers with the companies picked for its thinking type |
| LineBot.Bot.constructor | main.py:20 | the bot starts with no stored answers |
| LineBot.Bot.HandleMessage | main.py:92-156 | a message, stripped, updates the stored answers and replies as the handling function says, keeping every entry numbered |

## Left out

- CSV reading and writing, BOM handling, backups, printing, `sys.exit` and the input-file fallbacks are left out. A script's input rows and output rows are values. The `--dry-run` flag of `apply_high_confidence_map.py` is not modelled, and neither is its `subprocess.run` call (line 41).
- `csv.DictWriter` raises `ValueError` for a row holding a column missing from the field names. The model does not check field names.
- Short CSV rows, whose missing cells `csv.DictReader` fills with `None`, are not modelled. Every cell is text.
- Numbers with a sign, an exponent, `inf`, `nan` or underscores are not parsed by `Text.Hundredths`, the model of `float()`. They count as text `float()` rejects.
- `Text.Hundredths` keeps the first two decimals and drops the rest, where `float()` rounds to the nearest double: `"0.79999999999999999"` is 0.8 to Python and passes a `>= 0.8` test, but reads as 79 hundredths here. The scripts compare confidences they printed themselves with at most two decimals, which read back exactly (`Text.HundredthsRoundTrip`).
- `Text.ParseInt` rejects underscores between digits, which Python's `int()` accepts (`int("1_000") == 1000`). So do the members built on it: `Text.IntOrZero`, `Selection.SafeInt`, the score reading of the reports and scoring scripts, and the pipelines' sort key, where `Pipelines.SplitErrors` and `Pipelines.RunErrors` stop a run on such a score that Python completes.
- Python's `str.isdigit` and `int()` also accept non-ASCII digits. `Text` accepts only ASCII digits, and `str.lower` lowers only ASCII letters.
- Averages computed with `/` as floats are not modelled.
- `ScoreScripts.RescaledRow`: the numpy percentile scaling of `rescale_scores.py` is a parameter `scale`. Only the integer bucket rules applied to the scaled score are modelled.
- `Selection.SafeIntReadsBack`: `safe_int` is modelled on integer text and on plain two-decimal text. The model does not cover every text `float()` reads.
- The HEAD and GET requests of `select_and_pitch.py` are the parameters `head` and `get`. Their timeouts, headers and redirects, and the `time.sleep` between companies, are not modelled.
- The stats file of `summary_report.py` (lines 31-37) and the pitch file of `select_and_pitch.py` (lines 165-168) are not modelled as text. Their contents are returned as values: `Reports.SummaryReport` gives the industry counts, their ranking and the score buckets, and `Selection.SelectAndPitch` gives the pitches.
- `parse_recruit_page` in `legacy/recruit_parser.py` (line 190 on) downloads and parses HTML and is not part of this model. Neither is `legacy/recruit_finder.py`.
- The LINE webhook, its signature check, the Flask app and the reply texts of `main.py` are not modelled. Nor are the question texts. The replies are values of `LineBot.Reply`.
- `load_companies` in `main.py` catches every exception and returns the companies read so far. That path is not modelled.
- `LineBot.Recommendation`: the reply reads `c['company_name']` and `c['short_description']` (main.py:146), which raises `KeyError` for a company file without those columns. The model returns the picked companies and does not build the message text.
- `LineBot.HandleLastAnswer` and `LineBot.HandlePreserves`: when the reply fails, through that `KeyError` (main.py:146) or a failing `reply_message` (main.py:149), `del user_answers[user_id]` (main.py:155) is skipped. The user then keeps twenty answers, and the next "はい" or "いいえ" stores answer 21 (main.py:107-114) and diagnoses again. The model always removes the entry after the twentieth answer, so "at most nineteen answers" holds only where the reply succeeds.
- The unused `matched_tokens_map` of `run_pipeline_full.py` (lines 110 and 129) is not modelled.
- The summary printing of `run_pipeline_full.py` (lines 278-293) is not modelled.
- The unguarded `final3` check of `select_and_pitch.py` (lines 156-158) is never taken once there are candidates. `Selection.FinalThreeSize` proves this, so the model has no such exit.
- `survey_reply_handler.py`, `line_tools/` (Flask, LINE SDK, SQLite and a placeholder top three) and the PDF generators are not part of this model. Nor are `run_pilot.py` (external ML modules), `stats.py`, `gen_manual_map_template.py`, `legacy/data_loader.py`, `tools/organize_desktop.py` and `tools/update_all.py`.

## Findings

| source | as written | input that shows it | evidently intended | confidence | as-written member | corrected member |
|---|---|---|---|---|---|---|
| run_pipeline_full.py:102 | the others file is written with `others[0].keys()` as header (also run_pipeline.py:76) | any company list of 1 to 100 rows: `others` is empty and `others[0]` raises `IndexError` | write the others file with a header even when it is empty, with the first input row's columns, as `run_all_pipeline.py:71-74` and `run_full_pipeline.py:57-61` do | not executed | Pipelines.OthersIndexError | Pipelines.OthersHeaderSpec |
| run_pipeline_full.py:200 | a manual override logs `s["confidence"]`, where `s` is left over from an earlier company | company 1 auto-applied with confidence 0.85, then company 2 set by the manual map: company 2's log line shows 0.85 | a manual line logs no confidence | not executed | Pipelines.StaleConfidence | Pipelines.LogConf |
