/**
  The thinking-pattern diagnosis of a 20-question yes/no survey.

  Questions 1-5 (block A) measure felt limits of the current job, 6-10
  (block B) stopped thinking, 11-15 (block C) a side-job orientation and
  16-20 (block D) a career-change orientation. A block's score is the number
  of its questions answered exactly 1. The thinking type is decided by a
  priority-ordered cascade over A, C and D; the stop level by B alone.
*/
module Diagnosis {

  /** Question number to answer value, as collected; any key or value may appear. */
  type Answers = map<int, int>

  datatype ThinkingType = SideJob | CareerShift | Hybrid | Undifferentiated
  datatype StopLevel = Low | Medium | High

  datatype Result = Result(
    a: nat, b: nat, c: nat, d: nat,
    thinkingType: ThinkingType,
    stopLevel: StopLevel,
    thinkingTypeLabel: string,
    stopLevelLabel: string,
    summaryLabel: string)

  const HybridLabel := "ハイブリッド思考"
  const SideJobLabel := "副業思考"
  const CareerShiftLabel := "転職思考"
  const UndifferentiatedLabel := "未分化思考"
  /** The fallback of the cascade: the same type as `HybridLabel`, with its own label. */
  const WaveringHybridLabel := "ハイブリッド思考（揺れあり）"

  const LowLabel := "思考停止レベル：低"
  const MediumLabel := "思考停止レベル：中"
  const HighLabel := "思考停止レベル：高"

  /** A missing question, and any value other than 1, counts as "no". */
  function Yes(answers: Answers, q: int): nat
  {
    if q in answers && answers[q] == 1 then 1 else 0
  }

  /** `sum(get(q) for q in range(lo, hi))`. */
  function BlockSum(answers: Answers, lo: int, hi: int): nat
    decreases hi - lo
  {
    if hi <= lo then 0 else BlockSum(answers, lo, hi - 1) + Yes(answers, hi - 1)
  }

  /** The questions of `lo .. hi-1` answered exactly 1. */
  function YesSet(answers: Answers, lo: int, hi: int): set<int>
  {
    set q | lo <= q < hi && q in answers && answers[q] == 1
  }

  /** A block sum counts the questions of the block answered exactly 1, so it is at most the block size. */
  lemma {:induction false} BlockSumCounts(answers: Answers, lo: int, hi: int)
    requires lo <= hi
    ensures BlockSum(answers, lo, hi) == |YesSet(answers, lo, hi)|
    ensures BlockSum(answers, lo, hi) <= hi - lo
    decreases hi - lo
  {
    if hi > lo {
      BlockSumCounts(answers, lo, hi - 1);
      if Yes(answers, hi - 1) == 1 {
        assert YesSet(answers, lo, hi) == YesSet(answers, lo, hi - 1) + {hi - 1};
      } else {
        assert YesSet(answers, lo, hi) == YesSet(answers, lo, hi - 1);
      }
    }
  }

  /** A block sum reads only the answers to the questions of the block. */
  lemma {:induction false} BlockSumLocal(x: Answers, y: Answers, lo: int, hi: int)
    requires forall q :: lo <= q < hi ==> Yes(x, q) == Yes(y, q)
    ensures BlockSum(x, lo, hi) == BlockSum(y, lo, hi)
    decreases hi - lo
  {
    if hi > lo {
      BlockSumLocal(x, y, lo, hi - 1);
    }
  }

  /** The priority cascade over the block scores A, C and D. */
  function Classify(a: nat, c: nat, d: nat): (ThinkingType, string)
  {
    if c >= 3 && d >= 3 then (Hybrid, HybridLabel)
    else if c >= 3 && d <= 2 then (SideJob, SideJobLabel)
    else if d >= 3 && c <= 2 then (CareerShift, CareerShiftLabel)
    else if c <= 2 && d <= 2 && a >= 3 then (Undifferentiated, UndifferentiatedLabel)
    else (Hybrid, WaveringHybridLabel)
  }

  /** The stop level from block score B. */
  function Stop(b: nat): (StopLevel, string)
  {
    if b <= 1 then (Low, LowLabel)
    else if 2 <= b <= 3 then (Medium, MediumLabel)
    else (High, HighLabel)
  }

  /** `diagnose_thinking_pattern`: defined for every answers map. */
  function Diagnose(answers: Answers): (r: Result)
    ensures r.a == |YesSet(answers, 1, 6)| && r.b == |YesSet(answers, 6, 11)|
    ensures r.c == |YesSet(answers, 11, 16)| && r.d == |YesSet(answers, 16, 21)|
    ensures r.a <= 5 && r.b <= 5 && r.c <= 5 && r.d <= 5
    ensures (r.thinkingType, r.thinkingTypeLabel) == Classify(r.a, r.c, r.d)
    ensures (r.stopLevel, r.stopLevelLabel) == Stop(r.b)
    ensures r.summaryLabel == r.thinkingTypeLabel + " × " + r.stopLevelLabel
  {
    BlockSumCounts(answers, 1, 6);
    BlockSumCounts(answers, 6, 11);
    BlockSumCounts(answers, 11, 16);
    BlockSumCounts(answers, 16, 21);
    var a := BlockSum(answers, 1, 6);
    var b := BlockSum(answers, 6, 11);
    var c := BlockSum(answers, 11, 16);
    var d := BlockSum(answers, 16, 21);
    var (tt, ttLabel) := Classify(a, c, d);
    var (sl, slLabel) := Stop(b);
    Result(a, b, c, d, tt, sl, ttLabel, slLabel, ttLabel + " × " + slLabel)
  }

  /**
    The cascade, rule by rule: the rules are tried in order, so each
    outcome holds exactly on the inputs no earlier rule claims.
  */
  lemma ClassifyRules(a: nat, c: nat, d: nat)
    ensures Classify(a, c, d) == (Hybrid, HybridLabel) <==> c >= 3 && d >= 3
    ensures Classify(a, c, d).0 == SideJob <==> c >= 3 && d <= 2
    ensures Classify(a, c, d).0 == CareerShift <==> d >= 3 && c <= 2
    ensures Classify(a, c, d).0 == Undifferentiated <==> c <= 2 && d <= 2 && a >= 3
    ensures Classify(a, c, d) == (Hybrid, WaveringHybridLabel) <==> c <= 2 && d <= 2 && a <= 2
  {
  }

  /** The two hybrid outcomes share the type and differ in the label. */
  lemma HybridLabelsDiffer(a: nat, c: nat, d: nat)
    ensures Classify(a, c, d).0 == Hybrid <==> Classify(a, c, d).1 in {HybridLabel, WaveringHybridLabel}
    ensures HybridLabel != WaveringHybridLabel
  {
    assert WaveringHybridLabel[|HybridLabel|] == '（';
  }

  /** The stop level depends on B only: at most 1 is low, 2 or 3 medium, 4 or more high. */
  lemma StopRules(b: nat)
    ensures Stop(b).0 == Low <==> b <= 1
    ensures Stop(b).0 == Medium <==> 2 <= b <= 3
    ensures Stop(b).0 == High <==> b >= 4
  {
  }

  /** Answers to keys outside 1..20, and values other than 1, do not affect the diagnosis. */
  lemma DiagnoseReadsOnlyQuestions(x: Answers, y: Answers)
    requires forall q :: 1 <= q <= 20 ==> Yes(x, q) == Yes(y, q)
    ensures Diagnose(x) == Diagnose(y)
  {
    BlockSumLocal(x, y, 1, 6);
    BlockSumLocal(x, y, 6, 11);
    BlockSumLocal(x, y, 11, 16);
    BlockSumLocal(x, y, 16, 21);
  }

  /** No "yes" answer at all: the fallback hybrid label and a low stop level. */
  lemma AllNo(answers: Answers)
    requires forall q :: 1 <= q <= 20 ==> Yes(answers, q) == 0
    ensures Diagnose(answers).thinkingType == Hybrid
    ensures Diagnose(answers).thinkingTypeLabel == WaveringHybridLabel
    ensures Diagnose(answers).stopLevel == Low
  {
    DiagnoseReadsOnlyQuestions(answers, map[]);
    assert YesSet(map[], 1, 6) == {} && YesSet(map[], 6, 11) == {};
    assert YesSet(map[], 11, 16) == {} && YesSet(map[], 16, 21) == {};
  }

  /** Answers `1` on the questions of `yes` (among 1..20) and `0` on the rest. */
  function Sheet(yes: set<int>): Answers
  {
    map q | 1 <= q <= 20 :: if q in yes then 1 else 0
  }

  /** A, C and D all "yes", B all "no": primary hybrid with a low stop level. */
  lemma ExampleAllButB()
    ensures var r := Diagnose(Sheet({1, 2, 3, 4, 5, 11, 12, 13, 14, 15, 16, 17, 18, 19, 20}));
      r.a == 5 && r.b == 0 && r.c == 5 && r.d == 5 &&
      r.thinkingType == Hybrid && r.thinkingTypeLabel == HybridLabel && r.stopLevel == Low
  {
    var s := Sheet({1, 2, 3, 4, 5, 11, 12, 13, 14, 15, 16, 17, 18, 19, 20});
    BlockOfSheet({1, 2, 3, 4, 5, 11, 12, 13, 14, 15, 16, 17, 18, 19, 20}, 1, 6, {1, 2, 3, 4, 5});
    BlockOfSheet({1, 2, 3, 4, 5, 11, 12, 13, 14, 15, 16, 17, 18, 19, 20}, 6, 11, {});
    BlockOfSheet({1, 2, 3, 4, 5, 11, 12, 13, 14, 15, 16, 17, 18, 19, 20}, 11, 16, {11, 12, 13, 14, 15});
    BlockOfSheet({1, 2, 3, 4, 5, 11, 12, 13, 14, 15, 16, 17, 18, 19, 20}, 16, 21, {16, 17, 18, 19, 20});
  }

  /** The questions of a block answered "yes" on a sheet are those of its "yes" set within the block. */
  lemma BlockOfSheet(yes: set<int>, lo: int, hi: int, expected: set<int>)
    requires 1 <= lo <= hi <= 21
    requires forall q :: q in expected <==> lo <= q < hi && q in yes
    ensures YesSet(Sheet(yes), lo, hi) == expected
  {
  }

  /** B all "yes" and three of C: a side-job type with a high stop level. */
  lemma ExampleSideJobHigh()
    ensures var r := Diagnose(Sheet({6, 7, 8, 9, 10, 11, 12, 13}));
      r.a == 0 && r.b == 5 && r.c == 3 && r.d == 0 &&
      r.thinkingType == SideJob && r.stopLevel == High &&
      r.summaryLabel == "副業思考 × 思考停止レベル：高"
  {
    var s := Sheet({6, 7, 8, 9, 10, 11, 12, 13});
    BlockOfSheet({6, 7, 8, 9, 10, 11, 12, 13}, 1, 6, {});
    BlockOfSheet({6, 7, 8, 9, 10, 11, 12, 13}, 6, 11, {6, 7, 8, 9, 10});
    BlockOfSheet({6, 7, 8, 9, 10, 11, 12, 13}, 11, 16, {11, 12, 13});
    BlockOfSheet({6, 7, 8, 9, 10, 11, 12, 13}, 16, 21, {});
    var r := Diagnose(s);
    assert Classify(0, 3, 0) == (SideJob, SideJobLabel);
    assert Stop(5) == (High, HighLabel);
    SideJobHighText();
  }

  lemma SideJobHighText()
    ensures SideJobLabel + " × " + HighLabel == "副業思考 × 思考停止レベル：高"
  {
  }
}
