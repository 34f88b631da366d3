/** What the interview-level score promises: averages stay within the
    range of their inputs, the final score stays between zero and the
    ceiling, the gates come first, the tier is monotone and proportional to
    the ceiling, unanswered questions only contribute violations, and the
    export's penalty column adds up to the overview's penalty. */
module AggregateProperties {
  import opened Records
  import opened Aggregate

  // ---------------------------------------------------------------------
  // Sums and means.
  // ---------------------------------------------------------------------

  lemma {:induction false} SumAtLeast(xs: seq<real>, lo: real)
    requires forall i | 0 <= i < |xs| :: lo <= xs[i]
    ensures |xs| as real * lo <= Sum(xs)
  {
    if xs != [] {
      SumAtLeast(xs[1..], lo);
    }
  }

  lemma {:induction false} SumAtMost(xs: seq<real>, hi: real)
    requires forall i | 0 <= i < |xs| :: xs[i] <= hi
    ensures Sum(xs) <= |xs| as real * hi
  {
    if xs != [] {
      SumAtMost(xs[1..], hi);
    }
  }

  /** A mean is at least any lower bound of its values... */
  lemma MeanAtLeast(xs: seq<real>, lo: real)
    requires xs != []
    requires forall i | 0 <= i < |xs| :: lo <= xs[i]
    ensures lo <= Mean(xs)
  {
    SumAtLeast(xs, lo);
    assert Mean(xs) * |xs| as real == Sum(xs);
  }

  /** ...and at most any upper bound. */
  lemma MeanAtMost(xs: seq<real>, hi: real)
    requires xs != []
    requires forall i | 0 <= i < |xs| :: xs[i] <= hi
    ensures Mean(xs) <= hi
  {
    SumAtMost(xs, hi);
    assert Mean(xs) * |xs| as real == Sum(xs);
  }

  /** A mean lies between the smallest and the largest value allowed. */
  lemma MeanBounds(xs: seq<real>, lo: real, hi: real)
    requires xs != []
    requires forall i | 0 <= i < |xs| :: lo <= xs[i] <= hi
    ensures lo <= Mean(xs) <= hi
  {
    MeanAtLeast(xs, lo);
    MeanAtMost(xs, hi);
  }

  /** The mean of equal values is that value. */
  lemma MeanOfConstant(xs: seq<real>, c: real)
    requires xs != []
    requires forall i | 0 <= i < |xs| :: xs[i] == c
    ensures Mean(xs) == c
  {
    MeanBounds(xs, c, c);
  }

  /** Answers that are all the same record average to that record's own
      figures. */
  lemma IdenticalAnswersAverage(vs: seq<QuestionResult>, r: QuestionResult)
    requires vs != []
    requires forall i | 0 <= i < |vs| :: vs[i] == r
    ensures AveragesOf(vs) ==
              Averages(r.emotionScores.confidence, r.accuracy, r.fluency,
                       r.fluencyDetailed.grammarScore, r.fluencyDetailed.lexicalDiversity,
                       r.fluencyDetailed.coherenceScore, r.fillerCount)
  {
    MeanOfConstant(Confidences(vs), r.emotionScores.confidence);
    MeanOfConstant(Accuracies(vs), r.accuracy);
    MeanOfConstant(Fluencies(vs), r.fluency);
    MeanOfConstant(GrammarScores(vs), r.fluencyDetailed.grammarScore);
    MeanOfConstant(DiversityScores(vs), r.fluencyDetailed.lexicalDiversity);
    MeanOfConstant(CoherenceScores(vs), r.fluencyDetailed.coherenceScore);
    MeanOfConstant(FillerCounts(vs), r.fillerCount);
  }

  // ---------------------------------------------------------------------
  // Bounds of the final score.
  // ---------------------------------------------------------------------

  /** The fields the weighted sum reads hold percentages, and the filler
      count is a count. */
  predicate InRange(r: QuestionResult)
  {
    0.0 <= r.emotionScores.confidence <= 100.0 &&
    0.0 <= r.accuracy <= 100.0 &&
    0.0 <= r.fluency <= 100.0 &&
    0.0 <= r.fluencyDetailed.grammarScore <= 100.0 &&
    0.0 <= r.fluencyDetailed.lexicalDiversity <= 100.0 &&
    0.0 <= r.fluencyDetailed.coherenceScore <= 100.0 &&
    0.0 <= r.fillerCount
  }

  /** With percentages in range and no negative filler average the weights
      add up to at most 100. */
  lemma RawScoreAtMostHundred(a: Averages)
    requires 0.0 <= a.confidence <= 100.0 && 0.0 <= a.accuracy <= 100.0 && 0.0 <= a.fluency <= 100.0
    requires 0.0 <= a.grammar <= 100.0 && 0.0 <= a.diversity <= 100.0 && 0.0 <= a.coherence <= 100.0
    requires 0.0 <= a.fillers
    ensures RawScore(a) <= 100.0
  {
  }

  /** The filler term is not clamped: above ten fillers on average it
      subtracts from the other terms, and with nothing else scored twenty
      fillers give a raw score of -3. */
  lemma FillerTermUnclamped(a: Averages)
    requires a.fillers > 10.0
    ensures RawScore(a) < RawScore(a.(fillers := 10.0))
    ensures RawScore(Averages(0.0, 0.0, 0.0, 0.0, 0.0, 0.0, 20.0)) == -3.0
  {
  }

  /** The averages of in-range answers are in range. */
  lemma AveragesInRange(vs: seq<QuestionResult>)
    requires vs != [] && forall i | 0 <= i < |vs| :: InRange(vs[i])
    ensures var a := AveragesOf(vs);
      0.0 <= a.confidence <= 100.0 && 0.0 <= a.accuracy <= 100.0 && 0.0 <= a.fluency <= 100.0 &&
      0.0 <= a.grammar <= 100.0 && 0.0 <= a.diversity <= 100.0 && 0.0 <= a.coherence <= 100.0 &&
      0.0 <= a.fillers
  {
    MeanBounds(Confidences(vs), 0.0, 100.0);
    MeanBounds(Accuracies(vs), 0.0, 100.0);
    MeanBounds(Fluencies(vs), 0.0, 100.0);
    MeanBounds(GrammarScores(vs), 0.0, 100.0);
    MeanBounds(DiversityScores(vs), 0.0, 100.0);
    MeanBounds(CoherenceScores(vs), 0.0, 100.0);
    MeanAtLeast(FillerCounts(vs), 0.0);
  }

  /** Scaling a raw score of at most 100 to a ceiling and taking off a
      penalty never lands above the ceiling. */
  lemma FinalScoreAtMostCeiling(raw: real, maxPossible: real, totalViolations: nat)
    requires raw <= 100.0 && 0.0 <= maxPossible
    ensures FinalScore(raw, maxPossible, totalViolations) <= maxPossible
  {
  }

  /** The final score never goes below zero, and with in-range answers it
      never exceeds the ceiling. */
  lemma FinalScoreWithinCeiling(results: seq<QuestionResult>)
    requires forall r | r in results && r.hasValidData :: InRange(r)
    ensures OverviewOf(results).recommendation.Scored? ==>
              0.0 <= OverviewOf(results).recommendation.finalScore <= OverviewOf(results).maxPossibleScore
  {
    var vs := Answered(results);
    if vs != [] && TotalViolations(results) < DisqualifyingViolations {
      assert forall i | 0 <= i < |vs| :: InRange(vs[i]) by {
        forall i | 0 <= i < |vs| ensures InRange(vs[i]) {
          assert vs[i] in vs;
        }
      }
      AveragesInRange(vs);
      RawScoreAtMostHundred(AveragesOf(vs));
      FinalScoreAtMostCeiling(RawScore(AveragesOf(vs)), MaxPossibleScore(|vs|), TotalViolations(results));
    }
  }

  /** A higher raw score, a higher ceiling or fewer violations never lower
      the final score. */
  lemma FinalScoreMonotone(raw: real, raw': real, m: real, m': real, tv: nat, tv': nat)
    requires raw <= raw' && 0.0 <= m <= m' && 0.0 <= raw' && tv' <= tv
    ensures FinalScore(raw, m, tv) <= FinalScore(raw', m', tv')
  {
    var capped, capped' := raw / 100.0 * m, raw' / 100.0 * m';
    CappedMonotone(raw, raw', m, m');
    var d, d' := capped - (tv * ViolationWeight) as real, capped' - (tv' * ViolationWeight) as real;
    assert d <= d';
    assert FinalScore(raw, m, tv) == if d > 0.0 then d else 0.0;
    assert FinalScore(raw', m', tv') == if d' > 0.0 then d' else 0.0;
  }

  lemma CappedMonotone(raw: real, raw': real, m: real, m': real)
    requires raw <= raw' && 0.0 <= m <= m' && 0.0 <= raw'
    ensures raw / 100.0 * m <= raw' / 100.0 * m'
  {
  }

  // ---------------------------------------------------------------------
  // The gates and the tier.
  // ---------------------------------------------------------------------

  /** No recommendation is given exactly when no question was answered;
      with an answer, five violations disqualify before any score is
      formed, and fewer always yield a scored tier. */
  lemma OverviewGates(results: seq<QuestionResult>)
    ensures OverviewOf(results).recommendation == NoRecommendation <==>
              forall r | r in results :: !r.hasValidData
    ensures OverviewOf(results).recommendation == Disqualified <==>
              (exists r | r in results :: r.hasValidData) && TotalViolations(results) >= 5
    ensures OverviewOf(results).recommendation.Scored? <==>
              (exists r | r in results :: r.hasValidData) && TotalViolations(results) < 5
  {
    var vs := Answered(results);
    if vs != [] {
      assert vs[0] in vs;
    }
  }

  /** The order of the overall tiers from worst to best. */
  function TierRank(t: OverallTier): (n: nat)
    ensures n <= 4
  {
    match t
    case NotRecommended => 0
    case Weak => 1
    case Moderate => 2
    case Strong => 3
    case Exceptional => 4
  }

  /** Against a ceiling that is not negative, each overall tier is exactly
      its band of the final score: from 80 % of the ceiling, 70 to 80 %,
      60 to 70 %, 50 to 60 %, and below 50 %. */
  lemma OverallTierBands(s: real, m: real)
    requires 0.0 <= m
    ensures TierOf(s, m) == Exceptional <==> s >= m * 0.80
    ensures TierOf(s, m) == Strong <==> m * 0.70 <= s < m * 0.80
    ensures TierOf(s, m) == Moderate <==> m * 0.60 <= s < m * 0.70
    ensures TierOf(s, m) == Weak <==> m * 0.50 <= s < m * 0.60
    ensures TierOf(s, m) == NotRecommended <==> s < m * 0.50
  {
  }

  /** Against the same ceiling, a higher final score never gives a worse
      tier. */
  lemma TierMonotone(s: real, s': real, maxPossible: real)
    requires s <= s'
    ensures TierRank(TierOf(s, maxPossible)) <= TierRank(TierOf(s', maxPossible))
  {
  }

  /** The thresholds are shares of the ceiling: scaling the score and the
      ceiling together leaves the tier unchanged, so a tier depends only on
      the score as a share of the highest score still reachable. */
  lemma TierProportional(s: real, maxPossible: real, c: real)
    requires c > 0.0
    ensures TierOf(c * s, c * maxPossible) == TierOf(s, maxPossible)
  {
    var cs, cm := c * s, c * maxPossible;
    ScaledThreshold(s, maxPossible, c, cs, cm, 0.80);
    ScaledThreshold(s, maxPossible, c, cs, cm, 0.70);
    ScaledThreshold(s, maxPossible, c, cs, cm, 0.60);
    ScaledThreshold(s, maxPossible, c, cs, cm, 0.50);
  }

  lemma ScaledThreshold(s: real, maxPossible: real, c: real, cs: real, cm: real, k: real)
    requires c > 0.0 && cs == c * s && cm == c * maxPossible
    ensures cs >= cm * k <==> s >= maxPossible * k
  {
  }

  // ---------------------------------------------------------------------
  // The ceiling and the worked examples of the scoring explanation.
  // ---------------------------------------------------------------------

  /** One, two or three answers give a ceiling of 33.33, 66.67 or 100,
      and the ceiling grows with every answer. */
  lemma CeilingByAnswers(answered: nat, answered': nat)
    requires answered <= answered'
    ensures MaxPossibleScore(0) == 0.0 && MaxPossibleScore(1) == 100.0 / 3.0
    ensures MaxPossibleScore(2) == 200.0 / 3.0 && MaxPossibleScore(3) == 100.0
    ensures MaxPossibleScore(answered) <= MaxPossibleScore(answered')
  {
  }

  /** A raw 85 with one of three questions answered and two violations:
      (85 / 100) * 33.33 = 28.33, less 10, is 18.33, which is at least half
      of the ceiling and so a Weak candidate (the explanation text calls it
      "Not recommended"). With all three answered the same figures give
      85 - 10 = 75, a Strong candidate. */
  lemma WorkedExamples()
    ensures FinalScore(85.0, MaxPossibleScore(1), 2) == 55.0 / 3.0
    ensures TierOf(55.0 / 3.0, MaxPossibleScore(1)) == Weak
    ensures FinalScore(85.0, MaxPossibleScore(3), 2) == 75.0
    ensures TierOf(75.0, MaxPossibleScore(3)) == Strong
  {
  }

  // ---------------------------------------------------------------------
  // Unanswered questions.
  // ---------------------------------------------------------------------

  lemma {:induction false} AnsweredAppend(xs: seq<QuestionResult>, ys: seq<QuestionResult>)
    ensures Answered(xs + ys) == Answered(xs) + Answered(ys)
    decreases |xs|
  {
    if xs == [] {
      assert xs + ys == ys;
    } else {
      assert (xs + ys)[1..] == xs[1..] + ys;
      AnsweredAppend(xs[1..], ys);
    }
  }

  lemma {:induction false} TotalViolationsAppend(xs: seq<QuestionResult>, ys: seq<QuestionResult>)
    ensures TotalViolations(xs + ys) == TotalViolations(xs) + TotalViolations(ys)
    decreases |xs|
  {
    if xs == [] {
      assert xs + ys == ys;
    } else {
      assert (xs + ys)[1..] == xs[1..] + ys;
      TotalViolationsAppend(xs[1..], ys);
    }
  }

  /** The count of questions with violations adds over concatenation, and
      a single question counts exactly when its violation list is not
      empty. */
  lemma {:induction false} QuestionsWithViolationsAppend(xs: seq<QuestionResult>, ys: seq<QuestionResult>)
    ensures QuestionsWithViolations(xs + ys) == QuestionsWithViolations(xs) + QuestionsWithViolations(ys)
    ensures forall r :: QuestionsWithViolations([r]) == if r.violations == [] then 0 else 1
    decreases |xs|
  {
    if xs == [] {
      assert xs + ys == ys;
    } else {
      assert (xs + ys)[1..] == xs[1..] + ys;
      QuestionsWithViolationsAppend(xs[1..], ys);
    }
    forall r ensures QuestionsWithViolations([r]) == if r.violations == [] then 0 else 1 {
      assert [r][1..] == [];
    }
  }

  /** No question has a violation exactly when the count is zero, and
      every question has one exactly when the count is the number of
      questions. */
  lemma {:induction false} QuestionsWithViolationsCounts(results: seq<QuestionResult>)
    ensures QuestionsWithViolations(results) == 0 <==> forall i | 0 <= i < |results| :: results[i].violations == []
    ensures QuestionsWithViolations(results) == |results| <==> forall i | 0 <= i < |results| :: results[i].violations != []
    decreases |results|
  {
    if results != [] {
      QuestionsWithViolationsCounts(results[1..]);
      assert forall i | 1 <= i < |results| :: results[i] == results[1..][i - 1];
    }
  }

  lemma {:induction false} NoneAnswered(ys: seq<QuestionResult>)
    requires forall i | 0 <= i < |ys| :: !ys[i].hasValidData
    ensures Answered(ys) == []
  {
    if ys != [] {
      NoneAnswered(ys[1..]);
    }
  }

  /** Questions without valid data change neither the averages nor the
      ceiling, but their violations still count against the candidate. */
  lemma UnansweredOnlyAddViolations(results: seq<QuestionResult>, extra: seq<QuestionResult>)
    requires forall i | 0 <= i < |extra| :: !extra[i].hasValidData
    ensures Answered(results + extra) == Answered(results)
    ensures OverviewOf(results + extra).maxPossibleScore == OverviewOf(results).maxPossibleScore
    ensures OverviewOf(results + extra).totalViolations ==
              OverviewOf(results).totalViolations + TotalViolations(extra)
  {
    AnsweredAppend(results, extra);
    NoneAnswered(extra);
    assert Answered(results) + [] == Answered(results);
    TotalViolationsAppend(results, extra);
  }

  // ---------------------------------------------------------------------
  // The export's penalty column.
  // ---------------------------------------------------------------------

  function PenaltyColumnTotal(rows: seq<ScoreRow>): nat
  {
    if rows == [] then 0 else rows[0].violationPenaltyPercent + PenaltyColumnTotal(rows[1..])
  }

  /** The export's per-question penalties add up to the overview's
      penalty of 5 per violation across the interview. */
  lemma {:induction false} PenaltyColumnAddsUp(results: seq<QuestionResult>, rows: seq<ScoreRow>)
    requires |rows| == |results|
    requires forall i | 0 <= i < |results| ::
               rows[i].violationPenaltyPercent == ViolationWeight * |results[i].violations|
    ensures PenaltyColumnTotal(rows) == ViolationWeight * OverviewOf(results).totalViolations
    decreases |results|
  {
    if results != [] {
      PenaltyColumnAddsUp(results[1..], rows[1..]);
    }
  }
}
