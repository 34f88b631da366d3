/** The per-question result record the analysis step hands to the scoring
    engine. The source keeps it as a keyed dictionary and reads every field
    with a default; each field here holds the value that read yields, so an
    absent number is 0.0, an absent `fluency_level` is "No Data", an absent
    transcript is "", absent violations are [] and an absent
    `has_valid_data` is false. */
module Records {

  /** One integrity violation flagged while the question was recorded. Its
      evidence image path is not part of this model. */
  datatype Violation = Violation(reason: string, timestamp: real)

  /** `emotion_scores`: percentages in [0, 100]. */
  datatype EmotionScores = EmotionScores(confidence: real, nervousness: real)

  /** `fluency_detailed`: the independently measured speech signals. Its own
      `fluency_level` entry is kept because the demo data stores the level
      here, where the hiring decision does not look. */
  datatype FluencyDetail = FluencyDetail(
    speechRate: real,            // words per minute
    speechRateNormalized: real,  // quality ratio, ideally >= 0.9
    grammarScore: real,
    grammarErrors: nat,          // only quoted in the grammar reason
    lexicalDiversity: real,
    coherenceScore: real,
    fillerCount: real,
    pauseRatio: real,
    fluencyLevel: string)

  datatype QuestionResult = QuestionResult(
    question: string,
    transcript: string,
    violations: seq<Violation>,
    emotionScores: EmotionScores,
    accuracy: real,
    fluency: real,
    fluencyLevel: string,        // top-level `fluency_level`
    fluencyDetailed: FluencyDetail,
    fillerCount: real,           // top-level `filler_count`
    hasValidData: bool)

  /** The label `decide_hire` falls back to when `fluency_level` is absent. */
  const NoDataLevel: string := "No Data"
}
