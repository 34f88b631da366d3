/** The per-question hiring decision (`decide_hire`): a gate on the
    transcript, then threshold ladders that add half-points to an
    accumulator and note a reason each, a violation penalty, and a
    first-match mapping from the accumulator to a tier whose headline is put
    in front of the reasons. */
module HireDecision {
  import opened Records
  import opened Transcript

  datatype Decision = NoValidResponse | Disqualified | StrongHire | Hire | Maybe | WeakMaybe | No

  /** The ladder (or other step) a reason comes from. */
  datatype Topic =
    | NoResponse | Summary | ViolationCount
    | Confidence | Accuracy | Fluency | SpeechRate | Grammar
    | Vocabulary | Coherence | Fillers | Pauses | Nervousness

  /** One constructor per reason string of the source; each carries the
      value the string formats. */
  datatype Reason =
    // the two fixed reasons given for an unusable transcript
    | NoValidAudio | SpeakClearly
    // the headline of each tier
    | IntegrityCompromised | ExceptionalCandidate | StrongCandidate
    | ModeratePotential | BelowAverage | NotRecommended
    | ViolationsUnderReview(count: nat)
    | ExcellentConfidence(confidence: real) | HighConfidence(confidence: real)
    | ModerateConfidence(confidence: real) | LowConfidence(confidence: real)
    | ExcellentRelevance(accuracy: real) | StrongRelevance(accuracy: real)
    | AcceptableAnswer(accuracy: real) | LowRelevance(accuracy: real)
    | OutstandingFluency(fluency: real, level: string) | StrongFluency(fluency: real, level: string)
    | ModerateFluency(fluency: real, level: string) | FluencyNeedsImprovement(fluency: real, level: string)
    | OptimalSpeechRate(wpm: real) | GoodSpeechRate(wpm: real)
    | SpeakingTooFast(wpm: real) | SpeakingTooSlow(wpm: real)
    | ExcellentGrammar(grammar: real, errors: nat) | GoodGrammar(grammar: real, errors: nat)
    | AcceptableGrammar(grammar: real, errors: nat) | GrammarNeedsImprovement(grammar: real, errors: nat)
    | RichVocabulary(diversity: real) | GoodVocabulary(diversity: real) | LimitedVocabulary(diversity: real)
    | HighlyCoherent(coherence: real) | Coherent(coherence: real)
    | NoFillerWords | MinimalFillerWords(fillers: real)
    | SomeFillerWords(fillers: real) | ExcessiveFillerWords(fillers: real)
    | GoodSpeechFlow(pauseRatio: real) | AcceptablePauses(pauseRatio: real) | FrequentPauses(pauseRatio: real)
    | VeryHighNervousness(nervousness: real) | HighNervousness(nervousness: real)

  function TopicOf(r: Reason): Topic
  {
    match r
    case NoValidAudio | SpeakClearly => NoResponse
    case IntegrityCompromised | ExceptionalCandidate | StrongCandidate
      | ModeratePotential | BelowAverage | NotRecommended => Summary
    case ViolationsUnderReview(_) => ViolationCount
    case ExcellentConfidence(_) | HighConfidence(_) | ModerateConfidence(_) | LowConfidence(_) => Confidence
    case ExcellentRelevance(_) | StrongRelevance(_) | AcceptableAnswer(_) | LowRelevance(_) => Accuracy
    case OutstandingFluency(_, _) | StrongFluency(_, _) | ModerateFluency(_, _)
      | FluencyNeedsImprovement(_, _) => Fluency
    case OptimalSpeechRate(_) | GoodSpeechRate(_) | SpeakingTooFast(_) | SpeakingTooSlow(_) => SpeechRate
    case ExcellentGrammar(_, _) | GoodGrammar(_, _) | AcceptableGrammar(_, _) | GrammarNeedsImprovement(_, _) => Grammar
    case RichVocabulary(_) | GoodVocabulary(_) | LimitedVocabulary(_) => Vocabulary
    case HighlyCoherent(_) | Coherent(_) => Coherence
    case NoFillerWords | MinimalFillerWords(_) | SomeFillerWords(_) | ExcessiveFillerWords(_) => Fillers
    case GoodSpeechFlow(_) | AcceptablePauses(_) | FrequentPauses(_) => Pauses
    case VeryHighNervousness(_) | HighNervousness(_) => Nervousness
  }

  /** The reason that heads the list for each decision. */
  function Headline(d: Decision): Reason
  {
    match d
    case NoValidResponse => NoValidAudio
    case Disqualified => IntegrityCompromised
    case StrongHire => ExceptionalCandidate
    case Hire => StrongCandidate
    case Maybe => ModeratePotential
    case WeakMaybe => BelowAverage
    case No => NotRecommended
  }

  // ---------------------------------------------------------------------
  // The ladders, each as the points it adds and the notes it appends.
  // ---------------------------------------------------------------------

  /** A ladder that always notes exactly one reason. */
  datatype Step = Step(points: real, note: Reason)

  /** A ladder that notes at most one reason. */
  datatype QuietStep = QuietStep(points: real, notes: seq<Reason>)

  function ConfidenceStep(conf: real): (s: Step)
    ensures TopicOf(s.note) == Confidence
    ensures 0.0 <= s.points <= 2.5
  {
    if conf >= 75.0 then Step(2.5, ExcellentConfidence(conf))
    else if conf >= 60.0 then Step(2.0, HighConfidence(conf))
    else if conf >= 45.0 then Step(1.0, ModerateConfidence(conf))
    else Step(0.0, LowConfidence(conf))
  }

  function AccuracyStep(acc: real): (s: Step)
    ensures TopicOf(s.note) == Accuracy
    ensures 0.0 <= s.points <= 3.0
  {
    if acc >= 75.0 then Step(3.0, ExcellentRelevance(acc))
    else if acc >= 60.0 then Step(2.0, StrongRelevance(acc))
    else if acc >= 45.0 then Step(1.0, AcceptableAnswer(acc))
    else Step(0.0, LowRelevance(acc))
  }

  function FluencyStep(flu: real, level: string): (s: Step)
    ensures TopicOf(s.note) == Fluency
    ensures 0.0 <= s.points <= 4.0
  {
    if level == "Excellent" then Step(4.0, OutstandingFluency(flu, level))
    else if level == "Fluent" then Step(3.0, StrongFluency(flu, level))
    else if level == "Moderate" then Step(1.5, ModerateFluency(flu, level))
    else Step(0.0, FluencyNeedsImprovement(flu, level))
  }

  /** Informational only: no points, and no note when none of the four
      conditions holds. */
  function SpeechRateStep(rate: real, normalized: real): (q: QuietStep)
    ensures |q.notes| <= 1 && forall i | 0 <= i < |q.notes| :: TopicOf(q.notes[i]) == SpeechRate
    ensures q.points == 0.0
  {
    if normalized >= 0.9 then QuietStep(0.0, [OptimalSpeechRate(rate)])
    else if normalized >= 0.7 then QuietStep(0.0, [GoodSpeechRate(rate)])
    else if rate > 180.0 then QuietStep(0.0, [SpeakingTooFast(rate)])
    else if rate < 120.0 then QuietStep(0.0, [SpeakingTooSlow(rate)])
    else QuietStep(0.0, [])
  }

  function GrammarStep(grammar: real, errors: nat): (s: Step)
    ensures TopicOf(s.note) == Grammar
    ensures 0.0 <= s.points <= 1.0
  {
    if grammar >= 85.0 then Step(1.0, ExcellentGrammar(grammar, errors))
    else if grammar >= 70.0 then Step(0.0, GoodGrammar(grammar, errors))
    else if grammar >= 55.0 then Step(0.0, AcceptableGrammar(grammar, errors))
    else Step(0.0, GrammarNeedsImprovement(grammar, errors))
  }

  function VocabularyStep(diversity: real): (s: Step)
    ensures TopicOf(s.note) == Vocabulary
    ensures 0.0 <= s.points <= 1.0
  {
    if diversity >= 65.0 then Step(1.0, RichVocabulary(diversity))
    else if diversity >= 50.0 then Step(0.0, GoodVocabulary(diversity))
    else Step(0.0, LimitedVocabulary(diversity))
  }

  /** No note below 60. */
  function CoherenceStep(coherence: real): (q: QuietStep)
    ensures |q.notes| <= 1 && forall i | 0 <= i < |q.notes| :: TopicOf(q.notes[i]) == Coherence
    ensures 0.0 <= q.points <= 0.5
  {
    if coherence >= 75.0 then QuietStep(0.5, [HighlyCoherent(coherence)])
    else if coherence >= 60.0 then QuietStep(0.0, [Coherent(coherence)])
    else QuietStep(0.0, [])
  }

  function FillerStep(fillers: real): (s: Step)
    ensures TopicOf(s.note) == Fillers
    ensures -0.5 <= s.points <= 0.5
  {
    if fillers == 0.0 then Step(0.5, NoFillerWords)
    else if fillers <= 2.0 then Step(0.0, MinimalFillerWords(fillers))
    else if fillers <= 5.0 then Step(0.0, SomeFillerWords(fillers))
    else Step(-0.5, ExcessiveFillerWords(fillers))
  }

  /** Informational only. */
  function PauseStep(pauseRatio: real): (s: Step)
    ensures TopicOf(s.note) == Pauses
    ensures s.points == 0.0
  {
    if pauseRatio < 0.15 then Step(0.0, GoodSpeechFlow(pauseRatio))
    else if pauseRatio < 0.25 then Step(0.0, AcceptablePauses(pauseRatio))
    else Step(0.0, FrequentPauses(pauseRatio))
  }

  /** A penalty only; no note below 45. */
  function NervousnessStep(nerv: real): (q: QuietStep)
    ensures |q.notes| <= 1 && forall i | 0 <= i < |q.notes| :: TopicOf(q.notes[i]) == Nervousness
    ensures -1.5 <= q.points <= 0.0
  {
    if nerv >= 60.0 then QuietStep(-1.5, [VeryHighNervousness(nerv)])
    else if nerv >= 45.0 then QuietStep(-0.5, [HighNervousness(nerv)])
    else QuietStep(0.0, [])
  }

  /** The violation note, appended before any ladder runs. */
  function ViolationNotes(count: nat): seq<Reason>
  {
    if count > 0 then [ViolationsUnderReview(count)] else []
  }

  /** 1.5 points per violation. */
  function ViolationPenalty(count: nat): real
  {
    count as real * 1.5
  }

  // ---------------------------------------------------------------------
  // The decision as a function of the record.
  // ---------------------------------------------------------------------

  /** The points the eleven ladders add to the accumulator `pos`. The
      fluency level is read from the top level of the record and the filler
      count from `fluency_detailed`, as the source does. */
  function LadderPoints(r: QuestionResult): real
  {
    var d := r.fluencyDetailed;
    ConfidenceStep(r.emotionScores.confidence).points
    + AccuracyStep(r.accuracy).points
    + FluencyStep(r.fluency, r.fluencyLevel).points
    + SpeechRateStep(d.speechRate, d.speechRateNormalized).points
    + GrammarStep(d.grammarScore, d.grammarErrors).points
    + VocabularyStep(d.lexicalDiversity).points
    + CoherenceStep(d.coherenceScore).points
    + FillerStep(d.fillerCount).points
    + PauseStep(d.pauseRatio).points
    + NervousnessStep(r.emotionScores.nervousness).points
  }

  /** The notes the ladders append, in order. */
  function LadderNotes(r: QuestionResult): seq<Reason>
  {
    var d := r.fluencyDetailed;
    [ConfidenceStep(r.emotionScores.confidence).note]
    + [AccuracyStep(r.accuracy).note]
    + [FluencyStep(r.fluency, r.fluencyLevel).note]
    + SpeechRateStep(d.speechRate, d.speechRateNormalized).notes
    + [GrammarStep(d.grammarScore, d.grammarErrors).note]
    + [VocabularyStep(d.lexicalDiversity).note]
    + CoherenceStep(d.coherenceScore).notes
    + [FillerStep(d.fillerCount).note]
    + [PauseStep(d.pauseRatio).note]
    + NervousnessStep(r.emotionScores.nervousness).notes
  }

  /** The accumulator `pos` once every ladder and the penalty have run. */
  function Score(r: QuestionResult): real
  {
    LadderPoints(r) - ViolationPenalty(|r.violations|)
  }

  /** The reasons, in order, before the headline is put in front. */
  function Notes(r: QuestionResult): seq<Reason>
  {
    ViolationNotes(|r.violations|) + LadderNotes(r)
  }

  /** The final mapping, first match: violations, then 9 / 7 / 5 / 3. */
  function TierFor(pos: real, violationCount: nat): (d: Decision)
    ensures d == Disqualified <==> violationCount >= 3
    ensures d != NoValidResponse
  {
    if violationCount >= 3 then Disqualified
    else if pos >= 9.0 then StrongHire
    else if pos >= 7.0 then Hire
    else if pos >= 5.0 then Maybe
    else if pos >= 3.0 then WeakMaybe
    else No
  }

  datatype Verdict = Verdict(decision: Decision, reasons: seq<Reason>)

  /** `decide_hire` as a function of the record. */
  function Decide(r: QuestionResult): (v: Verdict)
    ensures v.decision == NoValidResponse <==> !IsValidTranscript(r.transcript)
    ensures v.reasons != [] && v.reasons[0] == (if IsValidTranscript(r.transcript) then Headline(v.decision) else NoValidAudio)
  {
    if !IsValidTranscript(r.transcript) then
      Verdict(NoValidResponse, [NoValidAudio, SpeakClearly])
    else
      var d := TierFor(Score(r), |r.violations|);
      Verdict(d, [Headline(d)] + Notes(r))
  }

  // ---------------------------------------------------------------------
  // The ladders, step by step: each section of `decide_hire` as a method
  // that adds to the accumulator and appends to the reason list.
  // ---------------------------------------------------------------------

  method ConfidenceLadder(conf: real, pos0: real, reasons0: seq<Reason>) returns (pos: real, reasons: seq<Reason>)
    ensures pos == pos0 + ConfidenceStep(conf).points
    ensures reasons == reasons0 + [ConfidenceStep(conf).note]
  {
    pos, reasons := pos0, reasons0;
    if conf >= 75.0 {
      pos := pos + 2.5;
      reasons := reasons + [ExcellentConfidence(conf)];
    } else if conf >= 60.0 {
      pos := pos + 2.0;
      reasons := reasons + [HighConfidence(conf)];
    } else if conf >= 45.0 {
      pos := pos + 1.0;
      reasons := reasons + [ModerateConfidence(conf)];
    } else {
      reasons := reasons + [LowConfidence(conf)];
    }
  }

  method AccuracyLadder(acc: real, pos0: real, reasons0: seq<Reason>) returns (pos: real, reasons: seq<Reason>)
    ensures pos == pos0 + AccuracyStep(acc).points
    ensures reasons == reasons0 + [AccuracyStep(acc).note]
  {
    pos, reasons := pos0, reasons0;
    if acc >= 75.0 {
      pos := pos + 3.0;
      reasons := reasons + [ExcellentRelevance(acc)];
    } else if acc >= 60.0 {
      pos := pos + 2.0;
      reasons := reasons + [StrongRelevance(acc)];
    } else if acc >= 45.0 {
      pos := pos + 1.0;
      reasons := reasons + [AcceptableAnswer(acc)];
    } else {
      reasons := reasons + [LowRelevance(acc)];
    }
  }

  method FluencyLadder(flu: real, fluencyLevel: string, pos0: real, reasons0: seq<Reason>)
    returns (pos: real, reasons: seq<Reason>)
    ensures pos == pos0 + FluencyStep(flu, fluencyLevel).points
    ensures reasons == reasons0 + [FluencyStep(flu, fluencyLevel).note]
  {
    pos, reasons := pos0, reasons0;
    if fluencyLevel == "Excellent" {
      pos := pos + 4.0;
      reasons := reasons + [OutstandingFluency(flu, fluencyLevel)];
    } else if fluencyLevel == "Fluent" {
      pos := pos + 3.0;
      reasons := reasons + [StrongFluency(flu, fluencyLevel)];
    } else if fluencyLevel == "Moderate" {
      pos := pos + 1.5;
      reasons := reasons + [ModerateFluency(flu, fluencyLevel)];
    } else {
      reasons := reasons + [FluencyNeedsImprovement(flu, fluencyLevel)];
    }
  }

  method SpeechRateLadder(speechRate: real, speechRateNormalized: real, pos0: real, reasons0: seq<Reason>)
    returns (pos: real, reasons: seq<Reason>)
    ensures pos == pos0 + SpeechRateStep(speechRate, speechRateNormalized).points
    ensures reasons == reasons0 + SpeechRateStep(speechRate, speechRateNormalized).notes
  {
    pos, reasons := pos0, reasons0;
    if speechRateNormalized >= 0.9 {
      reasons := reasons + [OptimalSpeechRate(speechRate)];
    } else if speechRateNormalized >= 0.7 {
      reasons := reasons + [GoodSpeechRate(speechRate)];
    } else if speechRate > 180.0 {
      reasons := reasons + [SpeakingTooFast(speechRate)];
    } else if speechRate < 120.0 {
      reasons := reasons + [SpeakingTooSlow(speechRate)];
    }
  }

  method GrammarLadder(grammarScore: real, grammarErrors: nat, pos0: real, reasons0: seq<Reason>) returns (pos: real, reasons: seq<Reason>)
    ensures pos == pos0 + GrammarStep(grammarScore, grammarErrors).points
    ensures reasons == reasons0 + [GrammarStep(grammarScore, grammarErrors).note]
  {
    pos, reasons := pos0, reasons0;
    if grammarScore >= 85.0 {
      pos := pos + 1.0;
      reasons := reasons + [ExcellentGrammar(grammarScore, grammarErrors)];
    } else if grammarScore >= 70.0 {
      reasons := reasons + [GoodGrammar(grammarScore, grammarErrors)];
    } else if grammarScore >= 55.0 {
      reasons := reasons + [AcceptableGrammar(grammarScore, grammarErrors)];
    } else {
      reasons := reasons + [GrammarNeedsImprovement(grammarScore, grammarErrors)];
    }
  }

  method VocabularyLadder(lexicalDiversity: real, pos0: real, reasons0: seq<Reason>) returns (pos: real, reasons: seq<Reason>)
    ensures pos == pos0 + VocabularyStep(lexicalDiversity).points
    ensures reasons == reasons0 + [VocabularyStep(lexicalDiversity).note]
  {
    pos, reasons := pos0, reasons0;
    if lexicalDiversity >= 65.0 {
      pos := pos + 1.0;
      reasons := reasons + [RichVocabulary(lexicalDiversity)];
    } else if lexicalDiversity >= 50.0 {
      reasons := reasons + [GoodVocabulary(lexicalDiversity)];
    } else {
      reasons := reasons + [LimitedVocabulary(lexicalDiversity)];
    }
  }

  method CoherenceLadder(coherenceScore: real, pos0: real, reasons0: seq<Reason>) returns (pos: real, reasons: seq<Reason>)
    ensures pos == pos0 + CoherenceStep(coherenceScore).points
    ensures reasons == reasons0 + CoherenceStep(coherenceScore).notes
  {
    pos, reasons := pos0, reasons0;
    if coherenceScore >= 75.0 {
      pos := pos + 0.5;
      reasons := reasons + [HighlyCoherent(coherenceScore)];
    } else if coherenceScore >= 60.0 {
      reasons := reasons + [Coherent(coherenceScore)];
    }
  }

  method FillerLadder(fillerCount: real, pos0: real, reasons0: seq<Reason>) returns (pos: real, reasons: seq<Reason>)
    ensures pos == pos0 + FillerStep(fillerCount).points
    ensures reasons == reasons0 + [FillerStep(fillerCount).note]
  {
    pos, reasons := pos0, reasons0;
    if fillerCount == 0.0 {
      pos := pos + 0.5;
      reasons := reasons + [NoFillerWords];
    } else if fillerCount <= 2.0 {
      reasons := reasons + [MinimalFillerWords(fillerCount)];
    } else if fillerCount <= 5.0 {
      reasons := reasons + [SomeFillerWords(fillerCount)];
    } else {
      pos := pos - 0.5;
      reasons := reasons + [ExcessiveFillerWords(fillerCount)];
    }
  }

  method PauseLadder(pauseRatio: real, pos0: real, reasons0: seq<Reason>) returns (pos: real, reasons: seq<Reason>)
    ensures pos == pos0 + PauseStep(pauseRatio).points
    ensures reasons == reasons0 + [PauseStep(pauseRatio).note]
  {
    pos, reasons := pos0, reasons0;
    if pauseRatio < 0.15 {
      reasons := reasons + [GoodSpeechFlow(pauseRatio)];
    } else if pauseRatio < 0.25 {
      reasons := reasons + [AcceptablePauses(pauseRatio)];
    } else {
      reasons := reasons + [FrequentPauses(pauseRatio)];
    }
  }

  method NervousnessLadder(nerv: real, pos0: real, reasons0: seq<Reason>) returns (pos: real, reasons: seq<Reason>)
    ensures pos == pos0 + NervousnessStep(nerv).points
    ensures reasons == reasons0 + NervousnessStep(nerv).notes
  {
    pos, reasons := pos0, reasons0;
    if nerv >= 60.0 {
      pos := pos - 1.5;
      reasons := reasons + [VeryHighNervousness(nerv)];
    } else if nerv >= 45.0 {
      pos := pos - 0.5;
      reasons := reasons + [HighNervousness(nerv)];
    }
  }

  /** The scoring sections of `decide_hire` (confidence through
      nervousness), run in order on a fresh accumulator and an empty list
      of notes. */
  method ScoreLadders(result: QuestionResult) returns (pos: real, reasons: seq<Reason>)
    ensures pos == LadderPoints(result)
    ensures reasons == LadderNotes(result)
  {
    var d := result.fluencyDetailed;
    pos, reasons := ConfidenceLadder(result.emotionScores.confidence, 0.0, []);
    assert reasons == [ConfidenceStep(result.emotionScores.confidence).note];
    pos, reasons := AccuracyLadder(result.accuracy, pos, reasons);
    pos, reasons := FluencyLadder(result.fluency, result.fluencyLevel, pos, reasons);
    pos, reasons := SpeechRateLadder(d.speechRate, d.speechRateNormalized, pos, reasons);
    pos, reasons := GrammarLadder(d.grammarScore, d.grammarErrors, pos, reasons);
    pos, reasons := VocabularyLadder(d.lexicalDiversity, pos, reasons);
    pos, reasons := CoherenceLadder(d.coherenceScore, pos, reasons);
    pos, reasons := FillerLadder(d.fillerCount, pos, reasons);
    pos, reasons := PauseLadder(d.pauseRatio, pos, reasons);
    pos, reasons := NervousnessLadder(result.emotionScores.nervousness, pos, reasons);
  }

  /** The final section of `decide_hire`: the first tier whose condition
      holds, with its headline inserted at the front of the reasons. */
  method FinalDecision(pos: real, violationCount: nat, notes: seq<Reason>)
    returns (decision: Decision, reasons: seq<Reason>)
    ensures decision == TierFor(pos, violationCount)
    ensures reasons == [Headline(decision)] + notes
  {
    reasons := notes;
    if violationCount >= 3 {
      decision := Disqualified;
      reasons := [IntegrityCompromised] + reasons;
    } else if pos >= 9.0 {
      decision := StrongHire;
      reasons := [ExceptionalCandidate] + reasons;
    } else if pos >= 7.0 {
      decision := Hire;
      reasons := [StrongCandidate] + reasons;
    } else if pos >= 5.0 {
      decision := Maybe;
      reasons := [ModeratePotential] + reasons;
    } else if pos >= 3.0 {
      decision := WeakMaybe;
      reasons := [BelowAverage] + reasons;
    } else {
      decision := No;
      reasons := [NotRecommended] + reasons;
    }
  }

  /** `decide_hire` past its transcript gate: the violation note, the
      scoring ladders, the violation penalty and the final tier. */
  method AssessAnswer(result: QuestionResult) returns (decision: Decision, reasons: seq<Reason>)
    ensures decision == TierFor(Score(result), |result.violations|)
    ensures reasons == [Headline(decision)] + Notes(result)
  {
    var violations := result.violations;
    reasons := [];
    if |violations| > 0 {
      reasons := reasons + [ViolationsUnderReview(|violations|)];
    }
    assert reasons == ViolationNotes(|violations|);

    var pos, notes := ScoreLadders(result);
    reasons := reasons + notes;
    assert reasons == Notes(result);

    if |violations| > 0 {
      var violationPenalty := |violations| as real * 1.5;
      pos := pos - violationPenalty;
    }
    assert pos == Score(result);

    decision, reasons := FinalDecision(pos, |violations|, reasons);
  }

  /** `decide_hire`: an unusable transcript is answered at once with the
      fixed pair of reasons; any other answer is assessed. */
  method DecideHire(result: QuestionResult) returns (decision: Decision, reasons: seq<Reason>)
    ensures !IsValidTranscript(result.transcript) ==>
              decision == NoValidResponse && reasons == [NoValidAudio, SpeakClearly]
    ensures IsValidTranscript(result.transcript) ==>
              decision == TierFor(Score(result), |result.violations|) &&
              reasons == [Headline(decision)] + Notes(result)
  {
    if !IsValidTranscript(result.transcript) {
      return NoValidResponse, [NoValidAudio, SpeakClearly];
    }
    decision, reasons := AssessAnswer(result);
  }
}
