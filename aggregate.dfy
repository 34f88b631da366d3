/** The interview-level score: violation totals over every question,
    averages over the answered questions, a weighted sum scaled to the
    share of questions answered, a penalty of 5 per violation floored at
    zero, and a tier relative to the highest score still reachable. The
    per-row score columns of the results export come from the same
    quantities. */
module Aggregate {
  import opened Records

  /** The interview always has three questions. */
  const TotalQuestions: nat := 3

  /** Percentage points taken off the interview score per violation. */
  const ViolationWeight: nat := 5

  /** Violations above this many (inclusive) disqualify outright. */
  const DisqualifyingViolations: nat := 5

  // ---------------------------------------------------------------------
  // Counts over every question.
  // ---------------------------------------------------------------------

  /** `sum(len(r['violations']) for r in results)`: every question counts,
      answered or not. The total is zero exactly when no question has a
      violation, and no question has more violations than the total. */
  function TotalViolations(results: seq<QuestionResult>): (n: nat)
    ensures n == 0 <==> forall i | 0 <= i < |results| :: results[i].violations == []
    ensures forall i | 0 <= i < |results| :: |results[i].violations| <= n
  {
    if results == [] then 0
    else
      var rest := TotalViolations(results[1..]);
      assert forall i | 1 <= i < |results| :: results[i] == results[1..][i - 1];
      |results[0].violations| + rest
  }

  /** The results with `has_valid_data`, in their original order: every
      valid result is kept as often as it occurs, and nothing else. */
  function Answered(results: seq<QuestionResult>): (vs: seq<QuestionResult>)
    ensures |vs| <= |results|
    ensures forall r :: r in vs <==> r in results && r.hasValidData
    ensures forall r :: multiset(vs)[r] == if r.hasValidData then multiset(results)[r] else 0
  {
    if results == [] then []
    else
      var rest := Answered(results[1..]);
      assert results == [results[0]] + results[1..];
      assert multiset(results) == multiset{results[0]} + multiset(results[1..]);
      if results[0].hasValidData then [results[0]] + rest else rest
  }

  /** How many questions have at least one violation: never more than the
      questions, nor than the violations counted over all of them, and none
      exactly when that total is zero. */
  function QuestionsWithViolations(results: seq<QuestionResult>): (n: nat)
    ensures n <= |results| && n <= TotalViolations(results)
    ensures n == 0 <==> TotalViolations(results) == 0
  {
    if results == [] then 0
    else (if |results[0].violations| > 0 then 1 else 0) + QuestionsWithViolations(results[1..])
  }

  /** `(answered / 3) * 100`: the score ceiling shrinks with every
      unanswered question. */
  function MaxPossibleScore(answered: nat): (m: real)
    ensures 0.0 <= m
    ensures answered <= TotalQuestions ==> m <= 100.0
    ensures m == 100.0 <==> answered == TotalQuestions
  {
    answered as real / TotalQuestions as real * 100.0
  }

  // ---------------------------------------------------------------------
  // Averages over the answered questions.
  // ---------------------------------------------------------------------

  function Sum(xs: seq<real>): real
  {
    if xs == [] then 0.0 else xs[0] + Sum(xs[1..])
  }

  /** `np.mean`, over exact reals. */
  function Mean(xs: seq<real>): real
    requires xs != []
  {
    Sum(xs) / |xs| as real
  }

  /** The seven averages the weighted sum uses. The confidence comes from
      `emotion_scores`, the filler count from the top level of each record,
      and grammar, vocabulary and coherence from `fluency_detailed`. */
  datatype Averages = Averages(
    confidence: real, accuracy: real, fluency: real,
    grammar: real, diversity: real, coherence: real, fillers: real)

  function Confidences(vs: seq<QuestionResult>): seq<real>
  {
    seq(|vs|, i requires 0 <= i < |vs| => vs[i].emotionScores.confidence)
  }

  function Accuracies(vs: seq<QuestionResult>): seq<real>
  {
    seq(|vs|, i requires 0 <= i < |vs| => vs[i].accuracy)
  }

  function Fluencies(vs: seq<QuestionResult>): seq<real>
  {
    seq(|vs|, i requires 0 <= i < |vs| => vs[i].fluency)
  }

  function GrammarScores(vs: seq<QuestionResult>): seq<real>
  {
    seq(|vs|, i requires 0 <= i < |vs| => vs[i].fluencyDetailed.grammarScore)
  }

  function DiversityScores(vs: seq<QuestionResult>): seq<real>
  {
    seq(|vs|, i requires 0 <= i < |vs| => vs[i].fluencyDetailed.lexicalDiversity)
  }

  function CoherenceScores(vs: seq<QuestionResult>): seq<real>
  {
    seq(|vs|, i requires 0 <= i < |vs| => vs[i].fluencyDetailed.coherenceScore)
  }

  function FillerCounts(vs: seq<QuestionResult>): seq<real>
  {
    seq(|vs|, i requires 0 <= i < |vs| => vs[i].fillerCount)
  }

  function AveragesOf(vs: seq<QuestionResult>): Averages
    requires vs != []
  {
    Averages(Mean(Confidences(vs)), Mean(Accuracies(vs)), Mean(Fluencies(vs)),
             Mean(GrammarScores(vs)), Mean(DiversityScores(vs)), Mean(CoherenceScores(vs)),
             Mean(FillerCounts(vs)))
  }

  // ---------------------------------------------------------------------
  // The score and the tier.
  // ---------------------------------------------------------------------

  /** The weighted sum 20/25/25/10/10/7/3; the filler term
      `(100 - fillers * 10) * 0.03` is not clamped and turns negative above
      ten fillers on average. */
  function RawScore(a: Averages): real
  {
    a.confidence * 0.20 + a.accuracy * 0.25 + a.fluency * 0.25 +
    a.grammar * 0.10 + a.diversity * 0.10 + a.coherence * 0.07 +
    (100.0 - a.fillers * 10.0) * 0.03
  }

  /** The raw score scaled to the ceiling, less 5 per violation, floored at
      zero. */
  function FinalScore(raw: real, maxPossible: real, totalViolations: nat): (s: real)
    ensures s >= 0.0
    ensures s >= raw / 100.0 * maxPossible - (totalViolations * ViolationWeight) as real
    ensures s == 0.0 || s == raw / 100.0 * maxPossible - (totalViolations * ViolationWeight) as real
  {
    var capped := raw / 100.0 * maxPossible;
    var penalty := totalViolations * ViolationWeight;
    if capped - penalty as real > 0.0 then capped - penalty as real else 0.0
  }

  datatype OverallTier = Exceptional | Strong | Moderate | Weak | NotRecommended

  /** First match at 80 / 70 / 60 / 50 percent of the ceiling. */
  function TierOf(finalScore: real, maxPossible: real): OverallTier
  {
    if finalScore >= maxPossible * 0.80 then Exceptional
    else if finalScore >= maxPossible * 0.70 then Strong
    else if finalScore >= maxPossible * 0.60 then Moderate
    else if finalScore >= maxPossible * 0.50 then Weak
    else NotRecommended
  }

  /** What the overview recommends: nothing without an answered question,
      a hard disqualification at five violations, otherwise a scored
      tier. */
  datatype Recommendation =
    | NoRecommendation
    | Disqualified
    | Scored(averages: Averages, rawScore: real, cappedScore: real, violationPenalty: nat,
             finalScore: real, tier: OverallTier)

  datatype Overview = Overview(
    totalViolations: nat, questionsAnswered: nat, questionsWithViolations: nat,
    maxPossibleScore: real, recommendation: Recommendation)

  /** The figures and the recommendation of the performance overview. */
  function OverviewOf(results: seq<QuestionResult>): (o: Overview)
    ensures o.questionsAnswered <= |results| && o.questionsWithViolations <= |results|
    ensures o.recommendation == NoRecommendation <==> o.questionsAnswered == 0
    ensures o.maxPossibleScore == MaxPossibleScore(o.questionsAnswered)
  {
    var tv := TotalViolations(results);
    var vs := Answered(results);
    var maxPossible := MaxPossibleScore(|vs|);
    var rec :=
      if vs == [] then NoRecommendation
      else if tv >= DisqualifyingViolations then Disqualified
      else
        var a := AveragesOf(vs);
        var raw := RawScore(a);
        var fin := FinalScore(raw, maxPossible, tv);
        Scored(a, raw, raw / 100.0 * maxPossible, tv * ViolationWeight, fin, TierOf(fin, maxPossible));
    Overview(tv, |vs|, QuestionsWithViolations(results), maxPossible, rec)
  }

  // ---------------------------------------------------------------------
  // The score columns of the results export.
  // ---------------------------------------------------------------------

  datatype ScoreRow = ScoreRow(
    questionNumber: nat, violationsCount: nat, violationPenaltyPercent: nat,
    maxPossibleScore: real, questionsAnswered: nat, totalQuestions: nat)

  /** One row per result, numbered from 1, built by a loop that appends. */
  method ExportScoreRows(results: seq<QuestionResult>) returns (rows: seq<ScoreRow>)
    ensures |rows| == |results|
    ensures forall i | 0 <= i < |results| ::
              rows[i].questionNumber == i + 1 &&
              rows[i].violationsCount == |results[i].violations| &&
              rows[i].violationPenaltyPercent == ViolationWeight * |results[i].violations| &&
              rows[i].maxPossibleScore == OverviewOf(results).maxPossibleScore &&
              rows[i].questionsAnswered == OverviewOf(results).questionsAnswered &&
              rows[i].totalQuestions == TotalQuestions
  {
    var questionsAnswered := |Answered(results)|;
    var maxPossible := MaxPossibleScore(questionsAnswered);
    rows := [];
    for i := 0 to |results|
      invariant |rows| == i
      invariant forall j | 0 <= j < i ::
                  rows[j] == ScoreRow(j + 1, |results[j].violations|, |results[j].violations| * ViolationWeight,
                                      maxPossible, questionsAnswered, TotalQuestions)
    {
      var violations := results[i].violations;
      rows := rows + [ScoreRow(i + 1, |violations|, |violations| * ViolationWeight,
                               maxPossible, questionsAnswered, TotalQuestions)];
    }
  }
}
