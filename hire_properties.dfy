/** What the hiring decision promises: the gate, the tier order, the bounds
    of the accumulator, the monotonicity of every ladder and the shape of
    the reason list. */
module HireProperties {
  import opened Records
  import opened Transcript
  import opened HireDecision

  // ---------------------------------------------------------------------
  // The transcript gate.
  // ---------------------------------------------------------------------

  /** An unusable transcript yields "No Valid Response" with the two fixed
      reasons, whatever every other field of the record holds. */
  lemma InvalidTranscriptDecision(r: QuestionResult, s: QuestionResult)
    requires !IsValidTranscript(r.transcript) && s.transcript == r.transcript
    ensures Decide(r) == Decide(s)
    ensures Decide(r).decision == NoValidResponse && |Decide(r).reasons| == 2
    ensures Decide(r).reasons[0] == Headline(NoValidResponse)
  {
  }

  // ---------------------------------------------------------------------
  // The tier order.
  // ---------------------------------------------------------------------

  /** The order of the tiers from worst to best; the tiers that end the
      assessment early sit at the bottom. */
  function Rank(d: Decision): (n: nat)
    ensures n <= 5
    ensures n == 0 <==> d == Disqualified || d == NoValidResponse
  {
    match d
    case NoValidResponse => 0
    case Disqualified => 0
    case No => 1
    case WeakMaybe => 2
    case Maybe => 3
    case Hire => 4
    case StrongHire => 5
  }

  /** Three or more violations disqualify whatever the accumulator holds,
      and nothing else does. */
  lemma DisqualifiedIffThreeViolations(pos: real, violationCount: nat)
    ensures TierFor(pos, violationCount) == Disqualified <==> violationCount >= 3
    ensures TierFor(pos, violationCount) != NoValidResponse
  {
  }

  /** Below three violations a higher accumulator never gives a worse
      tier. */
  lemma TierMonotone(p: real, q: real, violationCount: nat)
    requires p <= q && violationCount < 3
    ensures Rank(TierFor(p, violationCount)) <= Rank(TierFor(q, violationCount))
  {
  }

  /** The first-match cut points: each tier is exactly a band of the
      accumulator. */
  lemma TierBands(pos: real, violationCount: nat)
    requires violationCount < 3
    ensures TierFor(pos, violationCount) == StrongHire <==> 9.0 <= pos
    ensures TierFor(pos, violationCount) == Hire <==> 7.0 <= pos < 9.0
    ensures TierFor(pos, violationCount) == Maybe <==> 5.0 <= pos < 7.0
    ensures TierFor(pos, violationCount) == WeakMaybe <==> 3.0 <= pos < 5.0
    ensures TierFor(pos, violationCount) == No <==> pos < 3.0
  {
  }

  // ---------------------------------------------------------------------
  // Bounds of the accumulator.
  // ---------------------------------------------------------------------

  /** The accumulator never exceeds 2.5 + 3 + 4 + 1 + 1 + 0.5 + 0.5 = 12.5
      and never drops below -0.5 - 1.5 - 1.5 per violation. */
  lemma ScoreBounds(r: QuestionResult)
    ensures -2.0 - 1.5 * |r.violations| as real <= Score(r) <= 12.5
  {
  }

  /** The upper bound is reached: top marks everywhere, no fillers, no
      nervousness and no violations. */
  lemma ScoreMaxReached()
    ensures exists r: QuestionResult :: Score(r) == 12.5
  {
    var best := QuestionResult("", "", [], EmotionScores(100.0, 0.0), 100.0, 100.0, "Excellent",
                               FluencyDetail(150.0, 1.0, 100.0, 0, 100.0, 100.0, 0.0, 0.0, "Excellent"),
                               0.0, true);
    assert LadderPoints(best) == 12.5;
    assert Score(best) == 12.5;
  }

  /** The lower bound is reached for every violation count. */
  lemma ScoreMinReached(violations: seq<Violation>)
    ensures exists r: QuestionResult :: r.violations == violations &&
              Score(r) == -2.0 - 1.5 * |violations| as real
  {
    var worst := QuestionResult("", "", violations, EmotionScores(0.0, 100.0), 0.0, 0.0, NoDataLevel,
                                FluencyDetail(150.0, 0.0, 0.0, 0, 0.0, 0.0, 9.0, 1.0, NoDataLevel),
                                9.0, true);
    assert LadderPoints(worst) == -2.0;
    assert Score(worst) == -2.0 - 1.5 * |violations| as real;
  }

  // ---------------------------------------------------------------------
  // Monotonicity of the ladders.
  // ---------------------------------------------------------------------

  /** The order of the fluency labels the fluency ladder rewards. */
  function LevelRank(level: string): (n: nat)
    ensures n <= 3
    ensures n == 0 <==> level != "Excellent" && level != "Fluent" && level != "Moderate"
  {
    if level == "Excellent" then 3
    else if level == "Fluent" then 2
    else if level == "Moderate" then 1
    else 0
  }

  /** Each ladder, alone, moves the accumulator the way its signal
      suggests: the quality signals upwards, the filler count (a count, so
      never negative) and nervousness downwards. */
  lemma LaddersMonotone(lo: real, hi: real, flu: real, loLevel: string, hiLevel: string,
                         loErrors: nat, hiErrors: nat)
    requires lo <= hi
    ensures ConfidenceStep(lo).points <= ConfidenceStep(hi).points
    ensures AccuracyStep(lo).points <= AccuracyStep(hi).points
    ensures GrammarStep(lo, loErrors).points <= GrammarStep(hi, hiErrors).points
    ensures VocabularyStep(lo).points <= VocabularyStep(hi).points
    ensures CoherenceStep(lo).points <= CoherenceStep(hi).points
    ensures 0.0 <= lo ==> FillerStep(hi).points <= FillerStep(lo).points
    ensures NervousnessStep(hi).points <= NervousnessStep(lo).points
    ensures LevelRank(loLevel) <= LevelRank(hiLevel) ==>
              FluencyStep(flu, loLevel).points <= FluencyStep(flu, hiLevel).points
  {
  }

  /** Speech rate, its normalised ratio and the pause ratio only add
      notes: changing them never changes the accumulator. */
  lemma InformationalLaddersScoreNothing(r: QuestionResult, rate: real, normalized: real, pause: real)
    ensures Score(r.(fluencyDetailed := r.fluencyDetailed.(speechRate := rate,
                                                            speechRateNormalized := normalized,
                                                            pauseRatio := pause))) == Score(r)
  {
  }

  /** `r` is at least as strong as `s` on every signal a ladder scores. */
  predicate AtLeastAsStrong(r: QuestionResult, s: QuestionResult)
  {
    r.emotionScores.confidence >= s.emotionScores.confidence &&
    r.accuracy >= s.accuracy &&
    LevelRank(r.fluencyLevel) >= LevelRank(s.fluencyLevel) &&
    r.fluencyDetailed.grammarScore >= s.fluencyDetailed.grammarScore &&
    r.fluencyDetailed.lexicalDiversity >= s.fluencyDetailed.lexicalDiversity &&
    r.fluencyDetailed.coherenceScore >= s.fluencyDetailed.coherenceScore &&
    0.0 <= r.fluencyDetailed.fillerCount <= s.fluencyDetailed.fillerCount &&
    r.emotionScores.nervousness <= s.emotionScores.nervousness &&
    |r.violations| <= |s.violations|
  }

  /** A record at least as strong on every signal scores at least as
      much. */
  lemma ScoreMonotone(r: QuestionResult, s: QuestionResult)
    requires AtLeastAsStrong(r, s)
    ensures Score(s) <= Score(r)
  {
    var rd, sd := r.fluencyDetailed, s.fluencyDetailed;
    LaddersMonotone(s.emotionScores.confidence, r.emotionScores.confidence, r.fluency, s.fluencyLevel, r.fluencyLevel,
                    sd.grammarErrors, rd.grammarErrors);
    LaddersMonotone(s.accuracy, r.accuracy, r.fluency, s.fluencyLevel, r.fluencyLevel,
                    sd.grammarErrors, rd.grammarErrors);
    LaddersMonotone(sd.grammarScore, rd.grammarScore, r.fluency, s.fluencyLevel, r.fluencyLevel,
                    sd.grammarErrors, rd.grammarErrors);
    LaddersMonotone(sd.lexicalDiversity, rd.lexicalDiversity, r.fluency, s.fluencyLevel, r.fluencyLevel,
                    sd.grammarErrors, rd.grammarErrors);
    LaddersMonotone(sd.coherenceScore, rd.coherenceScore, r.fluency, s.fluencyLevel, r.fluencyLevel,
                    sd.grammarErrors, rd.grammarErrors);
    LaddersMonotone(rd.fillerCount, sd.fillerCount, r.fluency, s.fluencyLevel, r.fluencyLevel,
                    sd.grammarErrors, rd.grammarErrors);
    LaddersMonotone(r.emotionScores.nervousness, s.emotionScores.nervousness, r.fluency, s.fluencyLevel, r.fluencyLevel,
                    sd.grammarErrors, rd.grammarErrors);
    assert FluencyStep(s.fluency, s.fluencyLevel).points <= FluencyStep(r.fluency, r.fluencyLevel).points;
    assert ViolationPenalty(|s.violations|) >= ViolationPenalty(|r.violations|);
  }

  /** Between two usable answers, the one at least as strong on every
      signal never receives a worse decision. */
  lemma DecisionMonotone(r: QuestionResult, s: QuestionResult)
    requires IsValidTranscript(r.transcript) && IsValidTranscript(s.transcript)
    requires AtLeastAsStrong(r, s)
    ensures Rank(Decide(s).decision) <= Rank(Decide(r).decision)
  {
    ScoreMonotone(r, s);
    if |s.violations| < 3 {
      TierMonotone(Score(s), Score(r), |s.violations|);
    }
  }

  // ---------------------------------------------------------------------
  // The shape of the reason list.
  // ---------------------------------------------------------------------

  /** How many reasons in `rs` come from topic `t`. */
  function CountTopic(rs: seq<Reason>, t: Topic): (n: nat)
    ensures n <= |rs|
  {
    if rs == [] then 0
    else (if TopicOf(rs[0]) == t then 1 else 0) + CountTopic(rs[1..], t)
  }

  lemma {:induction false} CountTopicAppend(a: seq<Reason>, b: seq<Reason>, t: Topic)
    ensures CountTopic(a + b, t) == CountTopic(a, t) + CountTopic(b, t)
    decreases |a|
  {
    if a == [] {
      assert a + b == b;
    } else {
      assert (a + b)[1..] == a[1..] + b;
      CountTopicAppend(a[1..], b, t);
    }
  }

  /** `q` holds at most one reason, and only from `topic`. */
  predicate AtMostOneOf(q: seq<Reason>, topic: Topic)
  {
    |q| <= 1 && forall i | 0 <= i < |q| :: TopicOf(q[i]) == topic
  }

  lemma CountAtMostOne(q: seq<Reason>, topic: Topic, t: Topic)
    requires AtMostOneOf(q, topic)
    ensures CountTopic(q, t) == if t == topic then |q| else 0
  {
    if q != [] {
      assert q[1..] == [];
    }
  }

  /** Appending at most one reason of `topic` raises that topic's count by
      the number appended and leaves every other count alone. */
  lemma CountAppendNote(acc: seq<Reason>, q: seq<Reason>, topic: Topic, t: Topic)
    requires AtMostOneOf(q, topic)
    ensures CountTopic(acc + q, t) == CountTopic(acc, t) + if t == topic then |q| else 0
  {
    CountTopicAppend(acc, q, t);
    CountAtMostOne(q, topic, t);
  }

  /** The topics that note exactly once, and those that note at most
      once, in every assessed answer. */
  predicate AlwaysNoted(t: Topic)
  {
    t == Confidence || t == Accuracy || t == Fluency || t == Grammar ||
    t == Vocabulary || t == Fillers || t == Pauses
  }

  predicate SometimesNoted(t: Topic)
  {
    t == SpeechRate || t == Coherence || t == Nervousness
  }

  /** The counting argument for the ladder notes, over ten arbitrary
      pieces of the right topics. */
  lemma {:induction false} TenPiecesShape(c: seq<Reason>, a: seq<Reason>, f: seq<Reason>, sr: seq<Reason>,
                                          g: seq<Reason>, v: seq<Reason>, co: seq<Reason>,
                                          fi: seq<Reason>, p: seq<Reason>, n: seq<Reason>, t: Topic)
    requires |c| == |a| == |f| == |g| == |v| == |fi| == |p| == 1
    requires AtMostOneOf(c, Confidence) && AtMostOneOf(a, Accuracy) && AtMostOneOf(f, Fluency)
    requires AtMostOneOf(sr, SpeechRate) && AtMostOneOf(g, Grammar) && AtMostOneOf(v, Vocabulary)
    requires AtMostOneOf(co, Coherence) && AtMostOneOf(fi, Fillers) && AtMostOneOf(p, Pauses)
    requires AtMostOneOf(n, Nervousness)
    ensures var all := c + a + f + sr + g + v + co + fi + p + n;
      7 <= |all| <= 10 &&
      (AlwaysNoted(t) ==> CountTopic(all, t) == 1) &&
      (SometimesNoted(t) ==> CountTopic(all, t) <= 1) &&
      (!AlwaysNoted(t) && !SometimesNoted(t) ==> CountTopic(all, t) == 0)
  {
    CountAtMostOne(c, Confidence, t);
    CountAppendNote(c, a, Accuracy, t);
    CountAppendNote(c + a, f, Fluency, t);
    CountAppendNote(c + a + f, sr, SpeechRate, t);
    CountAppendNote(c + a + f + sr, g, Grammar, t);
    CountAppendNote(c + a + f + sr + g, v, Vocabulary, t);
    CountAppendNote(c + a + f + sr + g + v, co, Coherence, t);
    CountAppendNote(c + a + f + sr + g + v + co, fi, Fillers, t);
    CountAppendNote(c + a + f + sr + g + v + co + fi, p, Pauses, t);
    CountAppendNote(c + a + f + sr + g + v + co + fi + p, n, Nervousness, t);
  }

  /** The reasons the ladders append: one from each always-noting ladder,
      at most one from each of the others, none of any other topic. */
  lemma LadderNotesShape(r: QuestionResult, t: Topic)
    ensures 7 <= |LadderNotes(r)| <= 10
    ensures AlwaysNoted(t) ==> CountTopic(LadderNotes(r), t) == 1
    ensures SometimesNoted(t) ==> CountTopic(LadderNotes(r), t) <= 1
    ensures !AlwaysNoted(t) && !SometimesNoted(t) ==> CountTopic(LadderNotes(r), t) == 0
  {
    var d := r.fluencyDetailed;
    TenPiecesShape([ConfidenceStep(r.emotionScores.confidence).note],
                   [AccuracyStep(r.accuracy).note],
                   [FluencyStep(r.fluency, r.fluencyLevel).note],
                   SpeechRateStep(d.speechRate, d.speechRateNormalized).notes,
                   [GrammarStep(d.grammarScore, d.grammarErrors).note],
                   [VocabularyStep(d.lexicalDiversity).note],
                   CoherenceStep(d.coherenceScore).notes,
                   [FillerStep(d.fillerCount).note],
                   [PauseStep(d.pauseRatio).note],
                   NervousnessStep(r.emotionScores.nervousness).notes, t);
  }

  /** Putting at most one reason of `topic` in front of `rest`. */
  lemma PrependAtMostOne(q: seq<Reason>, topic: Topic, rest: seq<Reason>, t: Topic)
    requires AtMostOneOf(q, topic)
    ensures CountTopic(q + rest, t) == CountTopic(rest, t) + if t == topic then |q| else 0
    ensures q != [] ==> (q + rest)[0] == q[0] && (q + rest)[1..] == rest
  {
    CountTopicAppend(q, rest, t);
    CountAtMostOne(q, topic, t);
    if q != [] {
      assert (q + rest)[1..] == rest;
    }
  }

  /** The same shape for the notes with the violation note in front: that
      note, when present, comes first and is the only one of its topic. */
  lemma NotesShape(r: QuestionResult, t: Topic)
    ensures 7 <= |Notes(r)| <= 11
    ensures |r.violations| > 0 ==> Notes(r)[0] == ViolationsUnderReview(|r.violations|)
    ensures AlwaysNoted(t) ==> CountTopic(Notes(r), t) == 1
    ensures SometimesNoted(t) ==> CountTopic(Notes(r), t) <= 1
    ensures t == ViolationCount ==> CountTopic(Notes(r), t) == if |r.violations| > 0 then 1 else 0
    ensures t == Summary || t == NoResponse ==> CountTopic(Notes(r), t) == 0
  {
    LadderNotesShape(r, t);
    var vn := ViolationNotes(|r.violations|);
    assert AtMostOneOf(vn, ViolationCount);
    PrependAtMostOne(vn, ViolationCount, LadderNotes(r), t);
  }

  /** The list an assessed answer gets: a headline, then the notes. */
  lemma HeadlinedNotesShape(d: Decision, r: QuestionResult, t: Topic)
    requires d != NoValidResponse
    ensures var v := [Headline(d)] + Notes(r);
      8 <= |v| <= 12 &&
      v[0] == Headline(d) &&
      (|r.violations| > 0 ==> v[1] == ViolationsUnderReview(|r.violations|)) &&
      (AlwaysNoted(t) || t == Summary ==> CountTopic(v, t) == 1) &&
      (SometimesNoted(t) ==> CountTopic(v, t) <= 1) &&
      (t == ViolationCount ==> CountTopic(v, t) == if |r.violations| > 0 then 1 else 0) &&
      (t == NoResponse ==> CountTopic(v, t) == 0)
  {
    NotesShape(r, t);
    assert AtMostOneOf([Headline(d)], Summary);
    PrependAtMostOne([Headline(d)], Summary, Notes(r), t);
  }

  /** For a usable transcript the headline comes first, the violation
      note (when there are violations) second, and the list holds 8 to 12
      reasons: one headline, one note from each always-noting ladder, at
      most one from each other ladder and at most one violation note. */
  lemma ReasonsShape(r: QuestionResult, t: Topic)
    requires IsValidTranscript(r.transcript)
    ensures var v := Decide(r).reasons;
      8 <= |v| <= 12 &&
      v[0] == Headline(Decide(r).decision) &&
      (|r.violations| > 0 ==> v[1] == ViolationsUnderReview(|r.violations|)) &&
      (AlwaysNoted(t) || t == Summary ==> CountTopic(v, t) == 1) &&
      (SometimesNoted(t) ==> CountTopic(v, t) <= 1) &&
      (t == ViolationCount ==> CountTopic(v, t) == if |r.violations| > 0 then 1 else 0) &&
      (t == NoResponse ==> CountTopic(v, t) == 0)
  {
    HeadlinedNotesShape(TierFor(Score(r), |r.violations|), r, t);
  }
}
