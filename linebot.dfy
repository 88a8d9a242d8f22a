/**
  The LINE bot of `main.py`: it loads the company list, and for each user
  collects twenty yes/no answers one message at a time, then runs the
  thinking-pattern diagnosis and recommends the three companies with the
  highest score for the diagnosed type. The LINE replies are returned as
  values; the company file's contents are a parameter.
*/
module LineBot {
  import opened Base
  import opened Text
  import opened Ranking
  import Diagnosis

  // ------------------------------------------------------------ load_companies

  /** The columns `load_companies` turns into integers. */
  const ScoreFields: seq<string> := ["medical_relevance_score", "side_job_fit_score", "career_shift_fit_score", "hybrid_fit_score"]

  /** A loaded company: the other columns as text and the four score columns as integers. */
  datatype Company = Company(fields: Row, scores: map<string, nat>)

  /** `int(row[key])` when the column is present and all digits, 0 otherwise. */
  function Coerced(row: Row, key: string): nat
  {
    if key in row && IsDigits(row[key]) then DigitsValue(row[key]) else 0
  }

  function LoadCompany(row: Row): Company
  {
    Company(row - (set k | k in ScoreFields), map k | k in ScoreFields :: Coerced(row, k))
  }

  /**
    A loaded company has exactly the four score columns, each the value of
    its digits or 0 when the column is absent, empty or not all digits, and
    keeps every other column as it was.
  */
  lemma LoadCompanySpec(row: Row, k: string)
    ensures var c := LoadCompany(row);
      && c.scores.Keys == set f | f in ScoreFields
      && (k in ScoreFields ==> c.scores[k] == (if k in row && IsDigits(row[k]) then DigitsValue(row[k]) else 0))
      && (k in ScoreFields ==> k !in c.fields)
      && (k !in ScoreFields ==> (k in c.fields <==> k in row) && (k in row ==> c.fields[k] == row[k]))
  {
  }

  /** A score written as plain digits loads as its value; a missing score loads as 0. */
  lemma CoercedReadsBack(row: Row, k: string, n: nat)
    ensures Coerced(row[k := NatToString(n)], k) == n
    ensures k !in row ==> Coerced(row, k) == 0
  {
  }

  /** The inner loop of `load_companies`: coerce each of the four columns in turn. */
  method CoerceRow(row: Row) returns (c: Company)
    ensures c == LoadCompany(row)
  {
    var fields := row;
    var scores: map<string, nat> := map[];
    for j := 0 to |ScoreFields|
      invariant forall k :: k in scores <==> k in ScoreFields[..j]
      invariant forall k :: k in scores ==> scores[k] == Coerced(row, k)
      invariant forall k :: k in fields <==> k in row && k !in ScoreFields[..j]
      invariant forall k :: k in fields ==> fields[k] == row[k]
    {
      assert ScoreFields[..j + 1] == ScoreFields[..j] + [ScoreFields[j]];
      var key := ScoreFields[j];
      if key in row && IsDigits(row[key]) {
        scores := scores[key := DigitsValue(row[key])];
      } else {
        scores := scores[key := 0];
      }
      fields := fields - {key};
    }
    assert ScoreFields[..|ScoreFields|] == ScoreFields;
    c := Company(fields, scores);
  }

  /** The rows read, each coerced. */
  function Loaded(rows: seq<Row>): (cs: seq<Company>)
    ensures |cs| == |rows| && forall i :: 0 <= i < |rows| ==> cs[i] == LoadCompany(rows[i])
  {
    seq(|rows|, i requires 0 <= i < |rows| => LoadCompany(rows[i]))
  }

  /** `load_companies()`: every row read, coerced. */
  method LoadCompanies(rows: seq<Row>) returns (companies: seq<Company>)
    ensures companies == Loaded(rows)
  {
    companies := [];
    for i := 0 to |rows|
      invariant |companies| == i && forall j :: 0 <= j < i ==> companies[j] == LoadCompany(rows[j])
    {
      var c := CoerceRow(rows[i]);
      companies := companies + [c];
    }
    assert companies == Loaded(rows);
  }

  // ------------------------------------------------------------ pick_companies

  /** The score column ranking companies for a thinking type. */
  function ScoreKey(t: Diagnosis.ThinkingType): (k: string)
  {
    match t
    case SideJob => "side_job_fit_score"
    case CareerShift => "career_shift_fit_score"
    case Hybrid => "hybrid_fit_score"
    case Undifferentiated => "medical_relevance_score"
  }

  /** Each thinking type ranks by a score column of its own, one of the four loaded ones. */
  lemma ScoreKeySpec(t: Diagnosis.ThinkingType, u: Diagnosis.ThinkingType)
    ensures ScoreKey(t) in ScoreFields
    ensures ScoreKey(t) == ScoreKey(u) ==> t == u
  {
  }

  /** `c.get(score_key, 0)`. */
  function ScoreOf(c: Company, key: string): int
  {
    if key in c.scores then c.scores[key] else 0
  }

  function KeysFor(cs: seq<Company>, key: string): (ks: seq<int>)
    ensures |ks| == |cs| && forall i :: 0 <= i < |cs| ==> ks[i] == ScoreOf(cs[i], key)
  {
    seq(|cs|, i requires 0 <= i < |cs| => ScoreOf(cs[i], key))
  }

  /** `pick_companies(thinking_type, companies)`: the stable descending sort, first three. */
  function PickCompanies(t: Diagnosis.ThinkingType, cs: seq<Company>): seq<Company>
  {
    Take(SortDesc(cs, KeysFor(cs, ScoreKey(t))), 3)
  }

  /**
    Three companies are picked (fewer only when there are fewer), each from
    the list, scores for the type's column not rising, equal scores in list
    order, and no company left out scoring above one picked.
  */
  lemma PickCompaniesSpec(t: Diagnosis.ThinkingType, cs: seq<Company>)
    ensures var picked := PickCompanies(t, cs);
      var key := ScoreKey(t);
      var order := Rank(KeysFor(cs, key));
      && |picked| == Min(3, |cs|)
      && (forall a :: 0 <= a < |picked| ==> order[a] < |cs| && picked[a] == cs[order[a]])
      && (forall a, b :: 0 <= a < b < |picked| ==> ScoreOf(picked[a], key) >= ScoreOf(picked[b], key))
      && (forall a, b :: 0 <= a < b < |picked| && ScoreOf(picked[a], key) == ScoreOf(picked[b], key) ==> order[a] < order[b])
      && (forall i :: 0 <= i < |cs| && i !in order[..|picked|] ==>
            forall a :: 0 <= a < |picked| ==> ScoreOf(cs[i], key) <= ScoreOf(picked[a], key))
  {
    var keys := KeysFor(cs, ScoreKey(t));
    SortDescSpec(cs, keys);
    forall i | 0 <= i < |cs| && i !in Rank(keys)[..Min(3, |cs|)]
      ensures forall a :: 0 <= a < Min(3, |cs|) ==> keys[i] <= keys[Rank(keys)[a]]
    {
      TopIsHighest(keys, Min(3, |cs|), i);
    }
  }

  // ------------------------------------------------------------ handle_message

  /** What the bot replies. */
  datatype Reply =
    | AskQuestion(n: int)
    | AskYesOrNo
    | Recommend(result: Diagnosis.Result, companies: seq<Company>)
    | NoReply

  type Store = map<string, Diagnosis.Answers>

  /** Answers collected so far: questions 1 to k, each answered 1 or 0. */
  ghost predicate Numbered(a: Diagnosis.Answers)
  {
    (forall q :: q in a <==> 1 <= q <= |a|) && (forall q :: q in a ==> a[q] == 0 || a[q] == 1)
  }

  /** Between messages every user holds at most nineteen numbered answers. */
  ghost predicate Collecting(a: Diagnosis.Answers)
  {
    Numbered(a) && |a| <= 19
  }

  ghost predicate AllCollecting(s: Store)
  {
    forall u :: u in s ==> Collecting(s[u])
  }

  /** The answer a reply text stands for, if any. */
  function AnswerOf(text: string): Option<int>
  {
    if text == "はい" then Some(1) else if text == "いいえ" then Some(0) else None
  }

  /**
    `handle_message` on the stripped text: the store afterwards and the
    reply. The company rows are what `load_companies` reads.
  */
  function Handle(s: Store, user: string, text: string, rows: seq<Row>): (Store, Reply)
  {
    if text == "診断" then (s[user := map[]], AskQuestion(1))
    else if user !in s then (s, NoReply)
    else
      var answers := s[user];
      var q := |answers| + 1;
      match AnswerOf(text)
      case None => (s, AskYesOrNo)
      case Some(v) =>
        var answers' := answers[q := v];
        if q < 20 then (s[user := answers'], AskQuestion(q + 1))
        else
          var result := Diagnosis.Diagnose(answers');
          (s - {user}, Recommend(result, PickCompanies(result.thinkingType, Loaded(rows))))
  }

  /** No message changes another user's answers. */
  lemma HandleOthersUnchanged(s: Store, user: string, text: string, rows: seq<Row>, u: string)
    requires u != user
    ensures var s' := Handle(s, user, text, rows).0;
      (u in s' <==> u in s) && (u in s ==> s'[u] == s[u])
  {
  }

  /** "診断" starts over: the user's answers become empty and question 1 is asked. */
  lemma HandleStart(s: Store, user: string, rows: seq<Row>)
    ensures var (s', reply) := Handle(s, user, "診断", rows);
      user in s' && s'[user] == map[] && reply == AskQuestion(1)
  {
  }

  /** Any other message from a user who has not started changes nothing and gets no reply. */
  lemma HandleNotStarted(s: Store, user: string, text: string, rows: seq<Row>)
    requires text != "診断" && user !in s
    ensures Handle(s, user, text, rows) == (s, NoReply)
  {
  }

  /** A message other than "診断", "はい" or "いいえ" changes nothing and asks for a yes or no. */
  lemma HandleOtherText(s: Store, user: string, text: string, rows: seq<Row>)
    requires user in s && text != "診断" && text != "はい" && text != "いいえ"
    ensures Handle(s, user, text, rows) == (s, AskYesOrNo)
  {
  }

  /** Storing the next answer keeps the answers numbered, one more of them. */
  lemma NumberedNext(a: Diagnosis.Answers, v: int)
    requires Numbered(a) && (v == 0 || v == 1)
    ensures |a| + 1 !in a
    ensures Numbered(a[|a| + 1 := v]) && |a[|a| + 1 := v]| == |a| + 1
  {
  }

  /**
    One of the first nineteen answers is stored under the next question
    number, as 1 for "はい" and 0 for "いいえ", and the next question is
    asked.
  */
  lemma HandleAnswer(s: Store, user: string, text: string, rows: seq<Row>)
    requires user in s && Collecting(s[user]) && |s[user]| < 19 && AnswerOf(text).Some?
    ensures var (s', reply) := Handle(s, user, text, rows);
      var a := s[user];
      && user in s' && s'[user] == a[|a| + 1 := if text == "はい" then 1 else 0]
      && Collecting(s'[user]) && |s'[user]| == |a| + 1
      && reply == AskQuestion(|a| + 2)
  {
    NumberedNext(s[user], AnswerOf(text).value);
  }

  /**
    The twentieth answer runs the diagnosis on all twenty answers,
    recommends the top three companies for the diagnosed type and removes
    the user's entry.
  */
  lemma HandleLastAnswer(s: Store, user: string, text: string, rows: seq<Row>)
    requires user in s && Collecting(s[user]) && |s[user]| == 19 && AnswerOf(text).Some?
    ensures var (s', reply) := Handle(s, user, text, rows);
      var full := s[user][20 := AnswerOf(text).value];
      && user !in s'
      && Numbered(full) && |full| == 20
      && reply.Recommend?
      && reply.result == Diagnosis.Diagnose(full)
      && reply.companies == PickCompanies(reply.result.thinkingType, Loaded(rows))
  {
    NumberedNext(s[user], AnswerOf(text).value);
  }

  /** Every user's entry stays numbered with at most nineteen answers. */
  lemma HandlePreserves(s: Store, user: string, text: string, rows: seq<Row>)
    requires AllCollecting(s)
    ensures AllCollecting(Handle(s, user, text, rows).0)
  {
    var s' := Handle(s, user, text, rows).0;
    if text != "診断" && user in s && AnswerOf(text).Some? && |s[user]| + 1 < 20 {
      HandleAnswer(s, user, text, rows);
    }
  }

  /** The messages one user sends, handled in turn; the replies are dropped. */
  function Replay(s: Store, user: string, texts: seq<string>, rows: seq<Row>): Store
    decreases |texts|
  {
    if texts == [] then s
    else Replay(Handle(s, user, texts[0], rows).0, user, texts[1..], rows)
  }

  /**
    After "診断", each "はい" or "いいえ" adds one answer: a user who sends
    "診断" and then up to nineteen answers holds exactly that many.
  */
  lemma {:induction false} ReplayCollects(s: Store, user: string, texts: seq<string>, rows: seq<Row>)
    requires user in s && Collecting(s[user]) && |s[user]| + |texts| <= 19
    requires forall i :: 0 <= i < |texts| ==> AnswerOf(texts[i]).Some?
    ensures var s' := Replay(s, user, texts, rows);
      user in s' && Collecting(s'[user]) && |s'[user]| == |s[user]| + |texts|
  {
    if texts != [] {
      HandleAnswer(s, user, texts[0], rows);
      ReplayCollects(Handle(s, user, texts[0], rows).0, user, texts[1..], rows);
    }
  }

  /** After the twentieth answer: diagnose, load the companies and pick three. */
  method Recommendation(answers: Diagnosis.Answers, rows: seq<Row>) returns (reply: Reply)
    ensures reply == Recommend(Diagnosis.Diagnose(answers), PickCompanies(Diagnosis.Diagnose(answers).thinkingType, Loaded(rows)))
  {
    var result := Diagnosis.Diagnose(answers);
    var companies := LoadCompanies(rows);
    reply := Recommend(result, PickCompanies(result.thinkingType, companies));
  }

  /** The bot: the answers collected per user. */
  class Bot {
    var userAnswers: Store

    ghost predicate Valid()
      reads this
    {
      AllCollecting(userAnswers)
    }

    constructor()
      ensures userAnswers == map[] && Valid()
    {
      userAnswers := map[];
    }

    /** `handle_message(event)`: the message text is stripped first. */
    method HandleMessage(user: string, message: string, rows: seq<Row>) returns (reply: Reply)
      requires Valid()
      modifies this
      ensures Valid()
      ensures (userAnswers, reply) == Handle(old(userAnswers), user, Strip(message), rows)
    {
      HandlePreserves(userAnswers, user, Strip(message), rows);
      var text := Strip(message);
      if text == "診断" {
        userAnswers := userAnswers[user := map[]];
        return AskQuestion(1);
      }
      if user !in userAnswers {
        return NoReply;
      }
      var answers := userAnswers[user];
      var q := |answers| + 1;
      if text == "はい" {
        answers := answers[q := 1];
      } else if text == "いいえ" {
        answers := answers[q := 0];
      } else {
        return AskYesOrNo;
      }
      if q < 20 {
        userAnswers := userAnswers[user := answers];
        return AskQuestion(q + 1);
      }
      reply := Recommendation(answers, rows);
      userAnswers := userAnswers - {user};
    }
  }
}
