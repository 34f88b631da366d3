/** The simulated interview result the application builds when no recording
    is available, used as a worked test vector for both halves of the
    engine. The record stores its fluency level only inside
    `fluency_detailed`, so the hiring decision falls back to "No Data" for
    it. */
module DemoVectors {
  import opened Records
  import opened Transcript
  import opened HireDecision
  import opened Aggregate
  import opened AggregateProperties

  /** The demo transcript, in four pieces so that each can be inspected on
      its own. */
  const DemoTranscript: string := Opening + Purpose + Caveat + Closing
  const Opening: string := "This is a simulated transcript "
  const Purpose: string := "for demonstration purposes. "
  const Caveat: string := "In a real interview, your actual "
  const Closing: string := "speech would be transcribed here."

  /** The demo record as the scoring engine reads it. */
  function DemoResult(transcript: string, topLevelFluency: string): QuestionResult
  {
    QuestionResult(
      "Tell me about yourself.", transcript, [],
      EmotionScores(75.0, 15.0),
      78.5, 82.3, topLevelFluency,
      FluencyDetail(145.0, 0.92, 88.5, 2, 68.2, 72.4, 3.0, 0.12, "Fluent"),
      3.0, true)
  }

  /** The demo transcript is an answer: it has visible characters and,
      lacking both '[' and 'A', none of the error markers. */
  lemma FirstHalfLacksMarkerLeads()
    ensures '[' !in Opening + Purpose && 'A' !in Opening + Purpose
  {
    assert '[' !in Opening && 'A' !in Opening;
  }

  lemma SecondHalfLacksMarkerLeads()
    ensures '[' !in Caveat + Closing && 'A' !in Caveat + Closing
  {
    assert '[' !in Caveat && 'A' !in Caveat;
  }

  lemma DemoTranscriptValid()
    ensures IsValidTranscript(DemoTranscript)
  {
    FirstHalfLacksMarkerLeads();
    SecondHalfLacksMarkerLeads();
    NoMarkerWithoutLeadCharacter(DemoTranscript);
    BlankIffAllWhitespace(DemoTranscript);
    assert !IsWhitespace(DemoTranscript[0]);
  }

  /** The ladders of the demo record as stored: confidence 2.5, accuracy 3,
      grammar 1, vocabulary 1, and nine notes, one from every ladder but
      nervousness, which notes nothing below 45. */
  lemma DemoLadders(t: string)
    ensures LadderPoints(DemoResult(t, NoDataLevel)) == 7.5
    ensures LadderNotes(DemoResult(t, NoDataLevel)) ==
              [ExcellentConfidence(75.0), ExcellentRelevance(78.5),
               FluencyNeedsImprovement(82.3, NoDataLevel), OptimalSpeechRate(145.0),
               ExcellentGrammar(88.5, 2), RichVocabulary(68.2), Coherent(72.4),
               SomeFillerWords(3.0), GoodSpeechFlow(0.12)]
  {
  }

  /** As stored, the demo record scores 7.5 points (confidence 2.5,
      accuracy 3, grammar 1, vocabulary 1, and nothing for the fluency
      level the decision cannot see) and is a Hire with ten reasons. */
  lemma DemoDecisionAsStored(t: string)
    requires IsValidTranscript(t)
    ensures Score(DemoResult(t, NoDataLevel)) == 7.5
    ensures Decide(DemoResult(t, NoDataLevel)).decision == Hire
    ensures |Decide(DemoResult(t, NoDataLevel)).reasons| == 10
  {
    DemoLadders(t);
    var r := DemoResult(t, NoDataLevel);
    assert Notes(r) == LadderNotes(r);
  }

  /** Had the level been stored at the top level, the fluency ladder would
      add 3 more points and the record would be a Strong Hire. */
  lemma DemoDecisionWithTopLevelFluency(t: string)
    requires IsValidTranscript(t)
    ensures Score(DemoResult(t, "Fluent")) == 10.5
    ensures Decide(DemoResult(t, "Fluent")).decision == StrongHire
  {
  }

  /** Three answers that are one answered record with no violations are
      all answered and carry no violations. */
  lemma ThreeCleanAnswers(r: QuestionResult)
    requires r.hasValidData && r.violations == []
    ensures Answered([r, r, r]) == [r, r, r]
    ensures TotalViolations([r, r, r]) == 0 && QuestionsWithViolations([r, r, r]) == 0
  {
    assert [r, r, r][1..] == [r, r] && [r, r][1..] == [r];
    assert QuestionsWithViolations([r]) == 0;
  }

  /** Three demo answers with no violations: a raw score of 78.038 against
      a ceiling of 100 is a Strong candidate. The application builds one
      record per interview question, so the three records differ in their
      question text; no figure of the overview reads it, and the model uses
      the first question's record three times. */
  lemma DemoOverview(t: string)
    ensures OverviewOf([DemoResult(t, NoDataLevel), DemoResult(t, NoDataLevel), DemoResult(t, NoDataLevel)]) ==
              Overview(0, 3, 0, 100.0,
                       Scored(Averages(75.0, 78.5, 82.3, 88.5, 68.2, 72.4, 3.0),
                              78.038, 78.038, 0, 78.038, Strong))
  {
    var r := DemoResult(t, NoDataLevel);
    var rs := [r, r, r];
    ThreeCleanAnswers(r);
    IdenticalAnswersAverage(rs, r);
    var a := Averages(75.0, 78.5, 82.3, 88.5, 68.2, 72.4, 3.0);
    assert AveragesOf(rs) == a;
    DemoScore();
    var vs := Answered(rs);
    FullCeilingNoPenalty(RawScore(AveragesOf(vs)), MaxPossibleScore(|vs|));
  }

  /** Against the full ceiling and without violations, a raw score that is
      not negative is the capped and the final score alike. */
  lemma FullCeilingNoPenalty(raw: real, m: real)
    requires raw >= 0.0 && m == 100.0
    ensures raw / 100.0 * m == raw && FinalScore(raw, m, 0) == raw
  {
  }

  /** The demo figures weigh up to a raw score of 78.038, which a full
      ceiling and no violations leave unchanged, in the Strong band. */
  lemma DemoScore()
    ensures RawScore(Averages(75.0, 78.5, 82.3, 88.5, 68.2, 72.4, 3.0)) == 78.038
    ensures FinalScore(78.038, 100.0, 0) == 78.038
    ensures TierOf(78.038, 100.0) == Strong
  {
  }
}
