# Interview scoring engine

This project models, in Dafny, the scoring engine of an AI mock-interview
dashboard. The engine has three parts:

- **Transcript check.** It decides whether a recorded answer has a usable
  transcript. The transcript must not be blank and must hold none of the
  five error markers the speech recogniser writes.
- **Per-question hiring decision.** This is a series of threshold ladders:
  confidence, answer accuracy, fluency level, speech rate, grammar,
  vocabulary, coherence, filler words, pauses and nervousness.
  - Confidence, accuracy, fluency level, grammar, vocabulary, coherence,
    filler words and nervousness move an accumulator by fixed half-point
    steps. Speech rate and pauses never change it.
  - Every ladder notes one reason, except speech rate, coherence and
    nervousness, which may note none.
  - Each violation costs 1.5 points.
  - The tier comes from the first match in this order: three or more
    violations gives Disqualified; otherwise an accumulator of at least
    9 / 7 / 5 / 3 gives Strong Hire / Hire / Maybe / Weak Maybe, and
    anything lower gives No.
  - A headline reason goes in front of the notes.
- **Interview-level overview.**
  - Violations are counted over every question.
  - Averages are taken over the answered questions only.
  - The averages are combined with the weights 20/25/25/10/10/7/3.
  - The weighted sum is scaled to a ceiling of `answered / 3 × 100`.
  - 5 points per violation are subtracted, and the result is floored at
    zero.
  - The tier is set at 80/70/60/50 % of the ceiling. Five violations
    disqualify outright.
  - The results export repeats the ceiling and the per-question penalty
    on every row.

The files:

- `records.dfy`: the per-question result record. Each field holds the value
  the source reads, defaults included.
- `transcript.dfy`: Python's `strip`/`isspace`, substring search and the
  validity predicate.
- `hire_decision.dfy`: the decision, in two forms.
  - The ladders as functions (`Decide`).
  - The same ladders as imperative methods that grow `pos` and the reason
    list step by step (`DecideHire` and the methods it calls), each proved
    equal to the functional form.
- `hire_properties.dfy`: gating, tier bands, bounds, monotonicity and the
  shape of the reason list.
- `aggregate.dfy`: the overview figures, the overall tier and the per-row
  score columns of the export (a loop that appends rows).
- `aggregate_properties.dfy`: the bounds, gates, monotonicity,
  proportionality and worked examples of the overview.
- `demo_vectors.dfy`: the simulated result record of `app.py` as a test
  vector for both halves.

Arithmetic is on exact reals. Reasons are tags that carry the values the
source formats into its strings (the grammar reasons carry both the grammar
score and the error count).

## Model

| member | source | states |
|---|---|---|
| Transcript.StripLeft | scoring_dashboard.py:24 | leading whitespace removed: the result is a suffix of the input, the dropped prefix is all whitespace, and the result is empty exactly when the input is all whitespace, and otherwise starting with a non-whitespace character |
| Transcript.StripRight | scoring_dashboard.py:24 | trailing whitespace removed: the result is a prefix of the input, the dropped suffix is all whitespace, and the result is empty exactly when the input is all whitespace, and otherwise ending with a non-whitespace character |
| Transcript.Strip | scoring_dashboard.py:24 | `text.strip()` is empty exactly when every character is whitespace, and otherwise starts and ends with a non-whitespace character |
| Transcript.IsBlank | scoring_dashboard.py:24-25 | `not text or not text.strip()`; `BlankIffAllWhitespace` states that it holds exactly when every character is whitespace |
| Transcript.BlankIffAllWhitespace | scoring_dashboard.py:24-25 | `not text or not text.strip()` holds exactly when every character is whitespace |
| Transcript.Contains | scoring_dashboard.py:26-28 | Python's `marker in text`; `ContainsIffOccurs` states that it holds exactly when the marker occurs at some index |
| Transcript.ContainsIffOccurs | scoring_dashboard.py:26-28 | the substring test is true exactly when the pattern occurs at some index |
| Transcript.IsValidTranscript | scoring_dashboard.py:22-28 | `is_valid_transcript`: not blank and free of the five markers; `ValidTranscriptIff` states it character by character, in both directions |
| Transcript.ValidTranscriptIff | scoring_dashboard.py:22-28 | a transcript is valid iff some character is not whitespace and none of the five markers occurs at any index (both directions) |
| Transcript.NoMarkerWithoutLeadCharacter | scoring_dashboard.py:26-28 | text containing neither '[' nor 'A' contains none of the markers |
| HireDecision.ConfidenceStep | scoring_dashboard.py:71-83 | the confidence ladder notes exactly one confidence reason and adds between 0 and 2.5 |
| HireDecision.AccuracyStep | scoring_dashboard.py:84-96 | the accuracy ladder notes one accuracy reason and adds between 0 and 3 |
| HireDecision.FluencyStep | scoring_dashboard.py:97-109 | the fluency-level ladder notes one fluency reason and adds between 0 and 4 |
| HireDecision.SpeechRateStep | scoring_dashboard.py:110-119 | the speech-rate ladder adds nothing and notes at most one speech-rate reason |
| HireDecision.GrammarStep | scoring_dashboard.py:120-130 | the grammar ladder notes one grammar reason and adds between 0 and 1 |
| HireDecision.VocabularyStep | scoring_dashboard.py:131-139 | the vocabulary ladder notes one vocabulary reason and adds between 0 and 1 |
| HireDecision.CoherenceStep | scoring_dashboard.py:140-146 | the coherence ladder notes at most one coherence reason and adds between 0 and 0.5 |
| HireDecision.FillerStep | scoring_dashboard.py:147-158 | the filler ladder notes one filler reason and moves the accumulator between -0.5 and 0.5 |
| HireDecision.PauseStep | scoring_dashboard.py:159-166 | the pause ladder notes one pause reason and adds nothing |
| HireDecision.NervousnessStep | scoring_dashboard.py:167-174 | the nervousness ladder notes at most one reason and subtracts between 0 and 1.5 |
| HireDecision.LadderPoints | scoring_dashboard.py:68-174 | the points the ten ladders add; `ScoreLadders` proves the imperative blocks add exactly this, `LaddersMonotone` and `ScoreBounds` bound and order it |
| HireDecision.LadderNotes | scoring_dashboard.py:72-174 | the notes the ten ladders append, in order; `ScoreLadders` proves the blocks append exactly these, `LadderNotesShape` gives their count per topic |
| HireDecision.Score | scoring_dashboard.py:68-178 | the final `pos`, ladder points less 1.5 per violation; `ScoreBounds`, `ScoreMaxReached`, `ScoreMinReached` and `ScoreMonotone` state its range and order |
| HireDecision.Notes | scoring_dashboard.py:64-174 | the optional violation note followed by the ladder notes; `NotesShape` gives its length and per-topic counts |
| HireDecision.TierFor | scoring_dashboard.py:180-198 | the decision is Disqualified exactly when there are three or more violations, and never No Valid Response; `TierBands` and `TierMonotone` state the other bands |
| HireDecision.Decide | scoring_dashboard.py:30-200 | the decision is No Valid Response exactly when the transcript is invalid; the first reason is then "no valid audio", and otherwise the tier's headline; `DecideHire` proves the imperative form equal to it |
| HireDecision.ConfidenceLadder | scoring_dashboard.py:71-83 | the imperative confidence block raises `pos` by the ladder's points and appends its note |
| HireDecision.AccuracyLadder | scoring_dashboard.py:84-96 | the accuracy block raises `pos` by the ladder's points and appends its note |
| HireDecision.FluencyLadder | scoring_dashboard.py:97-109 | the fluency block, keyed on the top-level `fluency_level`, raises `pos` by the ladder's points and appends its note |
| HireDecision.SpeechRateLadder | scoring_dashboard.py:110-119 | the speech-rate block leaves `pos` unchanged and appends the ladder's optional note |
| HireDecision.GrammarLadder | scoring_dashboard.py:120-130 | the grammar block raises `pos` by the ladder's points and appends its note |
| HireDecision.VocabularyLadder | scoring_dashboard.py:131-139 | the vocabulary block raises `pos` by the ladder's points and appends its note |
| HireDecision.CoherenceLadder | scoring_dashboard.py:140-146 | the coherence block raises `pos` by the ladder's points and appends its optional note |
| HireDecision.FillerLadder | scoring_dashboard.py:147-158 | the filler block, keyed on `fluency_detailed.filler_count`, moves `pos` by the ladder's points and appends its note |
| HireDecision.PauseLadder | scoring_dashboard.py:159-166 | the pause block appends its note and leaves `pos` unchanged |
| HireDecision.NervousnessLadder | scoring_dashboard.py:167-174 | the nervousness block lowers `pos` by the ladder's penalty and appends its optional note |
| HireDecision.ScoreLadders | scoring_dashboard.py:68-174 | running the ten blocks in order from `pos = 0` yields exactly the summed ladder points and the concatenated notes |
| HireDecision.FinalDecision | scoring_dashboard.py:180-198 | the decision is the first-match tier of `pos` and the violation count, and the reason list is its headline followed by the earlier notes |
| HireDecision.AssessAnswer | scoring_dashboard.py:64-198 | for an answer, the violation note comes first, then the ladder notes; the 1.5-per-violation penalty is applied; the result equals the functional tier and headlined notes |
| HireDecision.DecideHire | scoring_dashboard.py:30-200 | an invalid transcript yields No Valid Response with the two fixed reasons; a valid one yields the tier of the score and the headlined notes |
| HireProperties.InvalidTranscriptDecision | scoring_dashboard.py:55-62 | with an invalid transcript the verdict does not depend on any other field and is No Valid Response with two reasons |
| HireProperties.Rank | scoring_dashboard.py:180-198 | orders the tiers; rank 0 is exactly Disqualified or No Valid Response |
| HireProperties.DisqualifiedIffThreeViolations | scoring_dashboard.py:181-183 | the tier is Disqualified iff there are at least three violations, whatever `pos` is |
| HireProperties.TierMonotone | scoring_dashboard.py:184-198 | below three violations, a higher `pos` never gives a worse tier |
| HireProperties.TierBands | scoring_dashboard.py:184-198 | below three violations each tier is exactly its band of `pos` (both directions): [9,∞), [7,9), [5,7), [3,5), below 3 |
| HireProperties.ScoreBounds | scoring_dashboard.py:69-178 | the final `pos` lies between −2 − 1.5 × violations and 12.5 |
| HireProperties.ScoreMaxReached | scoring_dashboard.py:69-178 | some record reaches 12.5 |
| HireProperties.ScoreMinReached | scoring_dashboard.py:69-178 | for every violation list, some record reaches −2 − 1.5 × violations |
| HireProperties.LevelRank | scoring_dashboard.py:97-109 | orders the fluency labels; rank 0 is exactly any label other than Excellent, Fluent and Moderate |
| HireProperties.LaddersMonotone | scoring_dashboard.py:72-174 | confidence, accuracy, grammar, vocabulary, coherence and the fluency label raise points monotonically, the grammar points whatever the error counts; filler count (from 0 up) and nervousness never raise them |
| HireProperties.InformationalLaddersScoreNothing | scoring_dashboard.py:110-119 | changing speech rate, its normalised ratio or the pause ratio leaves the score unchanged |
| HireProperties.ScoreMonotone | scoring_dashboard.py:69-178 | a record at least as strong on every scored signal, with no more violations, scores at least as much |
| HireProperties.DecisionMonotone | scoring_dashboard.py:30-198 | between two valid answers, the stronger one never gets a worse decision |
| HireProperties.CountTopic | scoring_dashboard.py:35-173 | counts the reasons of a topic; never more than the list length |
| HireProperties.CountTopicAppend | scoring_dashboard.py:35-173 | topic counts add over concatenation of reason lists |
| HireProperties.CountAtMostOne | scoring_dashboard.py:110-174 | an optional note contributes at most one reason, to its own topic only |
| HireProperties.CountAppendNote | scoring_dashboard.py:72-174 | appending one ladder's notes raises only that ladder's topic count |
| HireProperties.TenPiecesShape | scoring_dashboard.py:72-174 | ten ladders' notes in order give between 7 and 10 reasons, with exactly one from each always-noting ladder and at most one from each optional ladder |
| HireProperties.LadderNotesShape | scoring_dashboard.py:72-174 | the ladder notes of any record have that shape |
| HireProperties.PrependAtMostOne | scoring_dashboard.py:64-66 | putting the optional violation note in front adds only to its topic and keeps it at index 0 |
| HireProperties.NotesShape | scoring_dashboard.py:64-174 | the notes before the headline number 7 to 11, the violation note first when there are violations, with the counts per topic |
| HireProperties.HeadlinedNotesShape | scoring_dashboard.py:180-198 | inserting the headline at index 0 gives 8 to 12 reasons with the violation note at index 1 |
| HireProperties.ReasonsShape | scoring_dashboard.py:64-198 | for a valid transcript the reasons are 8 to 12: headline first, violation note at index 1 when present, exactly one each from confidence, accuracy, fluency, grammar, vocabulary, filler and pause, at most one each from speech rate, coherence and nervousness |
| Aggregate.TotalViolations | scoring_dashboard.py:333 | the violation total over every question is zero exactly when no question has a violation, and no question has more violations than the total |
| Aggregate.Answered | scoring_dashboard.py:347 | the answered questions are the results with `has_valid_data`: each such result is kept as often as it occurs, and nothing else is kept |
| Aggregate.MaxPossibleScore | scoring_dashboard.py:338 | the ceiling is never negative, at most 100 for at most three answers, and 100 exactly when all three questions are answered; `CeilingByAnswers` gives each value and its growth |
| Aggregate.QuestionsWithViolations | scoring_dashboard.py:335 | the number of questions with violations is at most the number of questions and at most the violation total shown beside it, and is zero exactly when that total is zero |
| Aggregate.Mean | scoring_dashboard.py:364-372 | `np.mean` over exact reals; `MeanBounds` and `MeanOfConstant` state that it lies within its values' bounds and that equal values average to themselves |
| Aggregate.AveragesOf | scoring_dashboard.py:351-372 | the seven averages over the answered results; `AveragesInRange` and `IdenticalAnswersAverage` state their range and their values for identical answers |
| Aggregate.RawScore | scoring_dashboard.py:416-424 | the 20/25/25/10/10/7/3 weighted sum; `RawScoreAtMostHundred` bounds it by 100 for in-range averages |
| Aggregate.FinalScore | scoring_dashboard.py:426-431 | the final score is never negative, is at least the capped score less 5 per violation, and is either 0 or exactly that difference |
| Aggregate.TierOf | scoring_dashboard.py:458-477 | first match at 80/70/60/50 % of the ceiling; `TierMonotone`, `TierProportional` and `WorkedExamples` state its order, scale invariance and sample values |
| Aggregate.OverviewOf | scoring_dashboard.py:331-477 | neither the answered count nor the count of questions with violations exceeds the number of results; no recommendation exactly when nothing is answered; the ceiling follows the answered count; `OverviewGates`, `FinalScoreWithinCeiling` and `UnansweredOnlyAddViolations` state the rest |
| Aggregate.ExportScoreRows | scoring_dashboard.py:628-650 | one row per result, numbered from 1; each row holds its own violation count, a penalty of 5 per violation, and the overview's ceiling and answered count |
| AggregateProperties.SumAtLeast | scoring_dashboard.py:364-368 | a sum of values each at least `lo` is at least `n × lo` |
| AggregateProperties.SumAtMost | scoring_dashboard.py:364-368 | a sum of values each at most `hi` is at most `n × hi` |
| AggregateProperties.MeanAtLeast | scoring_dashboard.py:364-368 | a mean is no lower than a lower bound of its values |
| AggregateProperties.MeanAtMost | scoring_dashboard.py:364-368 | a mean is no higher than an upper bound of its values |
| AggregateProperties.MeanBounds | scoring_dashboard.py:364-368 | a mean lies within the bounds of its values |
| AggregateProperties.MeanOfConstant | scoring_dashboard.py:364-368 | the mean of equal values is that value |
| AggregateProperties.IdenticalAnswersAverage | scoring_dashboard.py:349-372 | answers that are all one record average to that record's own figures |
| AggregateProperties.FillerTermUnclamped | scoring_dashboard.py:423 | the filler term is not clamped: above ten fillers on average the raw score is lower than at ten, and twenty fillers with nothing else scored give a raw score of −3 |
| AggregateProperties.RawScoreAtMostHundred | scoring_dashboard.py:416-424 | with averages in [0,100] and a non-negative filler average the weighted sum is at most 100 |
| AggregateProperties.AveragesInRange | scoring_dashboard.py:349-372 | averages of in-range answers are in range |
| AggregateProperties.FinalScoreAtMostCeiling | scoring_dashboard.py:426-431 | a raw score of at most 100 gives a final score of at most the ceiling |
| AggregateProperties.FinalScoreWithinCeiling | scoring_dashboard.py:331-431 | when in-range answers are scored, 0 ≤ final score ≤ maximum possible score |
| AggregateProperties.FinalScoreMonotone | scoring_dashboard.py:426-431 | a higher raw score, a higher ceiling or fewer violations never lower the final score |
| AggregateProperties.CappedMonotone | scoring_dashboard.py:427 | the capped score grows with the raw score and with the ceiling |
| AggregateProperties.OverviewGates | scoring_dashboard.py:347-413 | no recommendation iff no result has valid data; Disqualified iff some result has valid data and violations ≥ 5; otherwise scored (each both directions) |
| AggregateProperties.TierRank | scoring_dashboard.py:463-477 | orders the overall tiers; never above 4 |
| AggregateProperties.OverallTierBands | scoring_dashboard.py:458-477 | against a ceiling that is not negative, each overall tier is exactly its band of the final score: from 80 %, 70–80 %, 60–70 %, 50–60 % and below 50 % of the ceiling (both directions) |
| AggregateProperties.TierMonotone | scoring_dashboard.py:458-477 | against one ceiling, a higher final score never gives a worse tier |
| AggregateProperties.TierProportional | scoring_dashboard.py:458-477 | scaling score and ceiling by the same positive factor leaves the tier unchanged |
| AggregateProperties.ScaledThreshold | scoring_dashboard.py:458-461 | a threshold comparison is unchanged when both sides are scaled by a positive factor |
| AggregateProperties.CeilingByAnswers | scoring_dashboard.py:332-338 | the ceiling is 0, 33.33, 66.67 and 100 for 0–3 answers and grows with each answer |
| AggregateProperties.WorkedExamples | scoring_dashboard.py:793-851 | raw 85 with one answer and two violations gives 18.33, a Weak tier; with three answers it gives 75, a Strong tier |
| AggregateProperties.AnsweredAppend | scoring_dashboard.py:347 | filtering the answered results distributes over concatenation |
| AggregateProperties.QuestionsWithViolationsCounts | scoring_dashboard.py:335 | the count is zero exactly when no question has a violation, and equals the number of questions exactly when every question has one |
| AggregateProperties.QuestionsWithViolationsAppend | scoring_dashboard.py:335 | the count adds over concatenation, and a single question counts 1 exactly when its violation list is not empty, which pins the count to the questions with violations |
| AggregateProperties.TotalViolationsAppend | scoring_dashboard.py:333 | the violation total adds over concatenation |
| AggregateProperties.NoneAnswered | scoring_dashboard.py:347 | results without valid data leave nothing to average |
| AggregateProperties.UnansweredOnlyAddViolations | scoring_dashboard.py:331-349 | appending unanswered results changes neither the answered set nor the ceiling, but adds their violations to the total |
| AggregateProperties.PenaltyColumnAddsUp | scoring_dashboard.py:647 | the export's per-row penalties sum to the overview's 5 × total violations |
| DemoVectors.FirstHalfLacksMarkerLeads | app.py:444 | the first half of the demo transcript holds neither '[' nor 'A' |
| DemoVectors.SecondHalfLacksMarkerLeads | app.py:444 | the second half of the demo transcript holds neither '[' nor 'A' |
| DemoVectors.DemoTranscriptValid | app.py:444 | the demo transcript passes the transcript check |
| DemoVectors.DemoLadders | app.py:441-474 | the demo record's ladders add 7.5 points and note exactly these nine reasons in order: excellent confidence, excellent relevance, fluency needing improvement (level "No Data"), optimal speech rate, excellent grammar, rich vocabulary, coherent, some filler words and good speech flow; only nervousness notes nothing |
| DemoVectors.DemoDecisionAsStored | app.py:441-477 | the demo record as stored scores 7.5 and is a Hire with ten reasons, since its fluency level is not at the top level |
| DemoVectors.DemoDecisionWithTopLevelFluency | app.py:441-477 | with "Fluent" at the top level it would score 10.5 and be a Strong Hire |
| DemoVectors.ThreeCleanAnswers | app.py:441-474 | three answers that are one valid record without violations are all answered and carry no violations |
| DemoVectors.DemoScore | app.py:441-474 | the demo averages weigh up to a raw score of 78.038, which a full ceiling and no violations leave unchanged, in the Strong band |
| DemoVectors.FullCeilingNoPenalty | scoring_dashboard.py:426-431 | against a ceiling of 100 and without violations, a raw score that is not negative is both the capped and the final score |
| DemoVectors.DemoOverview | app.py:441-474 | three demo answers give a raw score of 78.038 against a ceiling of 100: a Strong candidate |

## Where the explanation text and the code differ

The model follows the code in each of these cases.

- The scoring explanation (scoring_dashboard.py:848-851) says a final
  18.33 against a ceiling of 33.33 is "Not recommended". The tier code
  compares it with 50 % of the ceiling (16.67) and calls it Weak.
  `AggregateProperties.WorkedExamples` proves the code's answer.
- The demo record stores `fluency_level` only inside `fluency_detailed`.
  The hiring decision reads it from the top level and falls back to "No
  Data", so the demo answer is a Hire, not a Strong Hire. Both are proved
  in `DemoVectors`.
- The hiring decision takes the filler count from `fluency_detailed`. The
  overview takes it from the top level of each record.
- Violations recorded for unanswered questions still count towards the
  total and the disqualification.

## Left out

- All Streamlit rendering: metric cards, tables, charts, images and the
  dashboard layout. It is display only.
- File-system and clock I/O (image paths, `time.strftime` file names), the
  pandas CSV serialisation and the export's pass-through columns.
- The averages of words per minute, pause ratio and normalised speech
  rate (scoring_dashboard.py:354-405). They are only displayed.
- The filler ratio and the number of pauses the hiring decision reads per
  question (scoring_dashboard.py:51-53) but never uses.
- Fields present with the value `None`. The model gives every field the
  value its default read yields (`or 0` for accuracy and fluency).
- The wording and number formatting of reason strings. Reasons are tags
  that carry the formatted values.
- Floating-point rounding of `np.mean` and of the weighted sum. The model
  uses exact reals.
- The parts of `app.py` other than the demo record, and all of `config.py`
  and `headless_fix.py`. Of `config.py` only the question count of 3 is
  used.
- HireProperties.LaddersMonotone: the filler ladder is proved antitone
  only for non-negative counts. A negative count scores less than zero
  fillers, which a count never is.
