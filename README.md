# EQ assessment scoring, modelled in Dafny

This project models the scoring pipeline of the emotional-intelligence
assessment: the `AdvancedEQAssessmentModel` of `assessment/eq_model.py`, and
the submission half of `response_view` in `assessment/views.py`.
- **Scenario choice.** A scenario is chosen from the respondent's profession.
- **Questions.** Five fixed reflective questions are asked about it.
- **Validation.** The answers are validated fail-fast: each must be non-blank and hold at least ten words.
- **Analysis.** Each answer goes through a sentiment classifier and an emotion classifier. Their variable-shape outputs are normalised into one analysis record: a standard sentiment label and score, a lower-cased emotion map, and the primary emotion.
- **Scoring.** The analyses are aggregated into sentiment ratios and emotion ratios. Six heuristic category scores are computed from those ratios, with a mild age adjustment, each clamped to [0, 100]. They are averaged into an overall score.
- **Interpretation.** The overall score is read as Low, Average or High EQ.
- **Display summaries.** The view also builds two summaries:
  - sentiment percentages over the three labels;
  - emotion percentages, sorted from the largest down.

## Modules

- `Optional` (optional.dfy): the `Option` datatype.
- `Text` (text.dfy): the Python string operations the code relies on:
  - `strip`, with Python's whitespace set;
  - `split()` into words;
  - `lower`/`upper` on ASCII letters;
  - substring test;
  - decimal rendering of naturals.
- `OrderedDict` (ordered_dict.dfy): an insertion-ordered dict from text to reals.
  - Dict order matters here: `max(d, key=d.get)` keeps the first of several equal maxima, and `sorted` is stable.
  - It also holds `sum(d.values())`, `dict(pairs)` and the stable descending sort.
- `Scenario` (scenario.dfy): `generate_scenario`, `generate_questions`.
- `Validation` (validation.dfy): `validate_responses`, as a loop proved against `FirstFailure`.
- `Features` (features.dfy): `analyze_single_response` and `analyze_responses`.
  - The two classifiers are a parameter, `Classifiers`: total functions from text to a datatype of the result shapes the code accepts.
  - The emotion classifier's exception is the `EmotionFault` shape.
- `Scoring` (scoring.dfy): `calculate_eq_scores`, `interpret_overall_eq`.
- `ResponseView` (views.dfy): the POST branch of `response_view`: collect, validate, analyse, score, and summarise.

Each loop of the source is a Dafny method with invariants. Its postcondition ties its result to a specification function, and the properties are proved about those functions as lemmas.

Some behaviours of the code worth noting:
- `cultural_awareness` reads the *sentiment* neutral ratio, not the `neutral` emotion.
  - The `surprise` and `neutral` emotion ratios are read but enter no formula.
- When the emotion classifier returns a label-keyed dict, an empty key is stored.
  - The `if label` guard exists only for the other shapes.
- The sentiment fallback of the summary is 33.3 for each label, which adds up to 99.9, not 100.
- The answer fields are numbered from 0 (`answer_0`, `answer_1`, …), while error messages number answers from 1.

## Model

| member | source | states |
|---|---|---|
| Scenario.SettingOf | assessment/eq_model.py:67-107 | On the lower-cased profession: teacher if a teacher keyword occurs; healthcare iff no teacher keyword but a healthcare one; management iff neither of those but a management keyword; the generic workplace otherwise (each an if-and-only-if) |
| Scenario.GenerateScenario | assessment/eq_model.py:55-107 | The scenario is always one of the four fixed texts |
| Scenario.ScenarioIgnoresCase | assessment/eq_model.py:67 | Upper- or lower-casing the profession never changes the scenario chosen |
| Scenario.LeadTeacher | assessment/eq_model.py:70-90 | "Lead Teacher" gets the teacher scenario, since the teacher group is tried before the management keyword "lead" |
| Scenario.NurseBeforeManager | assessment/eq_model.py:80-90 | "Head Nurse Manager" gets the healthcare scenario, since healthcare is tried before management |
| Scenario.GenerateQuestions | assessment/eq_model.py:119-127 | Exactly five questions, none empty, no two alike |
| Scenario.QuestionsIgnoreScenario | assessment/eq_model.py:109-127 | The question list is the same whatever scenario it is asked for |
| Scenario.ScenariosDistinct | assessment/eq_model.py:55-107 | The four scenario texts are pairwise different |
| Scenario.ScenarioRevealsSetting | assessment/eq_model.py:55-107 | Two profiles that get the same scenario text fall in the same setting, so the text tells which branch was taken |
| Text.Strip | assessment/eq_model.py:142 | The stripped response is the piece of the response that starts after the leading whitespace, with no whitespace at either end and only whitespace outside it; it is empty exactly when the response is blank |
| Text.StripFacts | assessment/eq_model.py:142 | Cutting leading whitespace and then trailing whitespace leaves such a piece, empty exactly when the text is blank |
| Text.StripKeepsWordCount | assessment/eq_model.py:145 | Splitting the stripped response gives as many words as splitting the response itself |
| Text.WordsEmptyIffBlank | assessment/eq_model.py:141-146 | A response has no words exactly when it is blank |
| Validation.CheckResponse | assessment/eq_model.py:141-151 | One response fails as empty iff it is blank. It fails as too short, with its word count, iff it is non-blank with fewer than ten words. It passes otherwise |
| Validation.CheckAnswer | assessment/eq_model.py:141-151 | The loop body's emptiness test, then word count, yields exactly `CheckResponse` |
| Validation.FirstFailureSpec | assessment/eq_model.py:139-153 | No failure iff every response is acceptable. Otherwise the reported failure is at the first unacceptable position i, every earlier response is acceptable, and it is reported as empty or too short at 1-based index i+1 according to whether response i is blank |
| Validation.FindFailure | assessment/eq_model.py:139-153 | The loop over the answers stops at, and returns, the first failing check, and returns none when every answer passes |
| Validation.ValidateResponses | assessment/eq_model.py:129-153 | Valid iff every response is acceptable, iff no message. An invalid result carries the message of the first failure |
| Validation.ReasonStart | assessment/eq_model.py:142-151 | The text after the answer number starts with a space, then "c" (cannot be empty) for an empty answer and "i" (is too short) for a short one |
| Validation.MessageParts | assessment/eq_model.py:142-151 | Equal messages name the same answer number and give the same reason |
| Validation.ShortReasonInjective | assessment/eq_model.py:147-151 | The too-short text names the word count, so equal texts have equal counts |
| Validation.MessageInjective | assessment/eq_model.py:142-151 | Different failures give different messages: the message tells which answer failed, whether it was empty or short, and its word count |
| Validation.NoResponsesAreValid | assessment/eq_model.py:139-153 | The empty list of responses is valid |
| Validation.BlankReportedFirst | assessment/eq_model.py:141-142 | Any blank first answer is reported as empty at position 1, whatever follows |
| Validation.ShortSecondAnswer | assessment/eq_model.py:139-151 | After an acceptable first answer, a short second one is reported as too short at position 2 with its word count |
| Features.StandardLabel | assessment/eq_model.py:181-186 | The label is one of the three. POSITIVE iff the text is POSITIVE or POS; NEGATIVE iff NEGATIVE or NEG; NEUTRAL iff neither |
| Features.NormaliseSentiment | assessment/eq_model.py:169-186 | The label is standard. A missing label reads as NEUTRAL. A missing score reads as 0.5, and a present score is kept |
| Features.SentimentLabels | assessment/eq_model.py:169-186 | Whatever the result shape, the normalised label is standard, and a label that is present gives POSITIVE exactly when it upper-cases to POSITIVE or POS and NEGATIVE exactly when it upper-cases to NEGATIVE or NEG |
| Features.ShortFormsAnyCase | assessment/eq_model.py:177-186 | The lower- and mixed-case short forms "pos" and "Neg" are read as POSITIVE and NEGATIVE |
| Features.SentimentDefaults | assessment/eq_model.py:169-178 | An empty list or an unrecognised shape gives NEUTRAL with score 0.5 |
| Features.ItemWritesLabels | assessment/eq_model.py:202-227 | Every emotion written from a list result has a non-empty, lower-cased label |
| Features.KeyedWritesLabels | assessment/eq_model.py:237-243 | Every emotion written from a label-keyed dict has a lower-cased key |
| Features.EmotionKeys | assessment/eq_model.py:198-243 | Every key of the emotion map is lower-cased, and non-empty for every shape but the label-keyed dict |
| Features.NoEmotionsWithoutResults | assessment/eq_model.py:189-199 | A classifier exception, an empty result or an unrecognised shape gives an empty emotion map |
| Features.KeyedKeepsEmptyKey | assessment/eq_model.py:205-243 | An empty key is stored from a label-keyed dict but an empty label in a list is skipped |
| Features.LastWriteWins | assessment/eq_model.py:202-243 | The score stored for a label is the last one written for it |
| Features.EmotionScoresOf | assessment/eq_model.py:196-243 | The emotion dict holds exactly the labels that some write in the shape's branch uses |
| Features.AddEmotionItem | assessment/eq_model.py:204-227 | One list item stores its lower-cased label and score when the label is non-empty, and changes nothing otherwise |
| Features.AddKeyedEntry | assessment/eq_model.py:239-243 | One label-keyed entry stores its score when it is a number or a dict with a score, and changes nothing otherwise |
| Features.ExtractItemScores | assessment/eq_model.py:201-228 | The loop over a list result builds the dict of the writes it makes, in order |
| Features.ExtractKeyedScores | assessment/eq_model.py:237-243 | The loop over a label-keyed dict builds the dict of the writes it makes, in order |
| Features.ExtractEmotionScores | assessment/eq_model.py:189-243 | The emotion map built for any result shape is `EmotionScoresOf` of that shape |
| Features.FirstMaxIndex | assessment/eq_model.py:249 | The index found holds a value at least every other value, and every earlier key holds a strictly smaller one, so it is the first maximum |
| Features.PrimaryEmotion | assessment/eq_model.py:245-250 | No primary emotion and score 0.0 iff the map is empty. Otherwise the primary emotion is a key whose score is the reported score, no score exceeds it, and no earlier key has the same score |
| Features.AnalysisShape | assessment/eq_model.py:155-258 | Every analysis has a standard sentiment label, lower-cased emotion keys, and a primary emotion that is a key of its map with the maximum score |
| Features.AnalysisOf | assessment/eq_model.py:155-258 | The record has a standard sentiment label and the emotion dict of the classifier's output. Its primary emotion is absent iff that dict is empty, and is one of its keys otherwise |
| Features.AnalyzeSingleResponse | assessment/eq_model.py:155-258 | The analysis of one response is `AnalysisOf` its text under the classifiers |
| Features.AnalyzeResponses | assessment/eq_model.py:260-274 | One analysis per response, in order, each the analysis of that response |
| Scoring.BucketsPartition | assessment/eq_model.py:300-312 | The positive, negative and other buckets together hold every sentiment score exactly once |
| Scoring.OtherSumIsNeutral | assessment/eq_model.py:305-310 | With standard labels the "else" bucket is exactly the NEUTRAL sum |
| Scoring.ProbabilitySums | assessment/eq_model.py:300-312 | Scores in [0, 1] give non-negative buckets whose total is at most the number of analyses |
| Scoring.SentimentRatiosOf | assessment/eq_model.py:320-326 | With N > 0 analyses each ratio times N is that bucket's sum. With none, all three are 0.33 |
| Scoring.SentimentRatiosBounded | assessment/eq_model.py:320-326 | Scores in [0, 1] give ratios in [0, 1] whose total is at most 1, and this holds for the 0.33 fallback when there are no analyses too |
| Scoring.AddAllAt | assessment/eq_model.py:315-318 | After adding a list of (emotion, score) pairs, each emotion's total is its old total plus the scores listed for it |
| Scoring.AddAllKeys | assessment/eq_model.py:315-318 | The keys after adding pairs are the old keys and the listed emotions |
| Scoring.EmotionTotalsAt | assessment/eq_model.py:298-318 | Each emotion's total, a missing one reading 0.0, is the sum of its scores over all analyses |
| Scoring.EmotionTotalsKeys | assessment/eq_model.py:298-318 | The totals hold exactly the emotions observed in some analysis |
| Scoring.AddScoreStep | assessment/eq_model.py:316-318 | One step of the inner loop is `AddScore`: a new emotion starts from 0.0 and the score is added |
| Scoring.AddScores | assessment/eq_model.py:315-318 | The inner loop adds every item of one analysis's emotion map, in order |
| Scoring.EmotionTotals | assessment/eq_model.py:298-318 | The outer loop builds `EmotionTotalsOf` the analyses |
| Scoring.EmotionRatiosOf | assessment/eq_model.py:328-337 | Same keys in the same order. With a positive grand total each ratio times the grand total is that emotion's total. Otherwise each ratio times the number of emotions is 1 |
| Scoring.EmotionRatiosSumToOne | assessment/eq_model.py:328-337 | Whenever some emotion was observed, the ratios sum to 1, on both the proportional and the uniform branch |
| Scoring.ScaledRatiosSumToOne | assessment/eq_model.py:331-333 | With a positive grand total the ratios sum to 1 |
| Scoring.UniformRatiosSumToOne | assessment/eq_model.py:334-337 | The uniform fallback over observed emotions sums to 1 |
| Scoring.NoTotalsNoRatios | assessment/eq_model.py:336-337 | No observed emotions give an empty ratio map |
| Scoring.MissingEmotionReadsZero | assessment/eq_model.py:339-347 | An emotion never observed reads as ratio 0.0 |
| Scoring.NormaliseEmotions | assessment/eq_model.py:329-337 | The normalising loop and comprehension build `EmotionRatiosOf` the totals |
| Scoring.CategoryDict | assessment/eq_model.py:378-385 | The result dict has exactly the six category names, in order, each holding its score |
| Scoring.CategoryDictSum | assessment/eq_model.py:378-388 | The values of the result dict sum to the six scores' sum |
| Scoring.Clamp | assessment/eq_model.py:379-384 | `max(0, min(100, x))` lies in [0, 100], is x inside that range, 0 below it and 100 above it |
| Scoring.ClampMonotone | assessment/eq_model.py:379-384 | Clamping never reverses an order |
| Scoring.AgeFactor | assessment/eq_model.py:372 | `min(1, age/60)`: at most 1. Exactly 1 from age 60. age/60 below it |
| Scoring.AgeOf | assessment/eq_model.py:371 | `demographics.get('age', 30)`: the given age, or 30 when none is given |
| Scoring.RawCategoryScores | assessment/eq_model.py:353-375 | One unclamped score per category, in category order |
| Scoring.RawScoresBaseline | assessment/eq_model.py:350-368 | With every ratio zero and no age bonus, each of the six formulas gives its base score of 50 |
| Scoring.RawScoresAgeBonus | assessment/eq_model.py:371-375 | Only resilience and stress management depend on the age factor, by 5 and 3 times it. The other four formulas do not read it |
| Scoring.CategoryScores | assessment/eq_model.py:353-385 | The keys are exactly the six category names, in order, and every score lies in [0, 100] |
| Scoring.CategoryScoresOf | assessment/eq_model.py:353-385 | The category scores of a list of analyses and demographics: the six names, in order, each score in [0, 100] |
| Scoring.MeanOfPercentages | assessment/eq_model.py:388 | The mean of values in [0, 100] lies in [0, 100] |
| Scoring.OverallOf | assessment/eq_model.py:387-390 | The overall score lies in [0, 100] and is one sixth of the category scores' sum |
| Scoring.AgeNeverLowers | assessment/eq_model.py:370-385 | An older respondent never scores lower on resilience or stress management, and the other four scores do not depend on age |
| Scoring.AgeCapped | assessment/eq_model.py:372 | Every age from 60 up scores as age 60 |
| Scoring.AdjustmentClamped | assessment/eq_model.py:356-380 | The age bonus is added before the clamp: a resilience formula already at 100 stays at 100 |
| Scoring.CalculateEqScores | assessment/eq_model.py:276-390 | The category scores are `CategoryScoresOf` the analyses and demographics, keyed by the six names, and the overall score is their mean, in [0, 100] |
| Scoring.EmptyAssessment | assessment/eq_model.py:320-390 | No analyses and no age give 50, 52.5, 66.5, 66.5, 50 and 68, an overall 353.5/6, and Average EQ |
| Scoring.InterpretOverallEq | assessment/eq_model.py:402-407 | Low EQ iff below 40; Average EQ iff from 40 to 70 inclusive; High EQ iff above 70 |
| Scoring.InterpretMonotone | assessment/eq_model.py:402-407 | A higher score never gets a lower level |
| Scoring.InterpretBoundaries | assessment/eq_model.py:402-407 | 40 and 70 are both Average, 39.99 is Low and 70.01 is High |
| OrderedDict.PutKeeps | assessment/eq_model.py:208 | Assigning a key never removes or reorders existing keys, stores the value, and leaves the other keys' values as they were |
| OrderedDict.SortedByValueEntries | assessment/views.py:132-136 | Sorting the emotion percentages keeps exactly the same entries |
| OrderedDict.SortedByValueOrder | assessment/views.py:132-136 | The sorted dict is non-increasing, a permutation of the items, and keeps equal values in their original order |
| Text.StripIdempotent | assessment/views.py:73 | Stripping an already stripped answer changes nothing |
| Text.NatToStringInjective | assessment/views.py:72 | Different question numbers are rendered differently |
| ResponseView.AnswerKeysDistinct | assessment/views.py:71-72 | Different questions read different form fields |
| ResponseView.AnswerOfField | assessment/views.py:73 | The collected answer is the field's value stripped, with a missing field giving the stripped empty default |
| ResponseView.CollectedOf | assessment/views.py:70-74 | One answer per question |
| ResponseView.CollectedAt | assessment/views.py:70-74 | Answer i of the collected answers is the answer to question i, read from the field `answer_i` |
| ResponseView.CollectResponses | assessment/views.py:70-74 | The collection loop builds exactly `CollectedOf` the form and the question count |
| ResponseView.CollectedAnswer | assessment/views.py:73 | Every collected answer is stripped, and a missing field is collected as an empty answer |
| ResponseView.EmptyFormRejected | assessment/views.py:70-84 | An empty form is refused at answer 1, as empty |
| ResponseView.LabelDict | assessment/views.py:95 | The sentiment dict has the keys POSITIVE, NEGATIVE, NEUTRAL in that order, each holding its value |
| ResponseView.LabelSumSnoc | assessment/views.py:97-101 | One more analysis adds its score to its own label's count and to no other |
| ResponseView.CountSentiment | assessment/views.py:98-101 | One step of the counting loop adds the score to the label's count when the label is already a key, and changes nothing else |
| ResponseView.CountsSnoc | assessment/views.py:96-101 | One more analysis adds its score to the count of its own label, when that is one of the three, and leaves the other counts as they were |
| ResponseView.NoCounts | assessment/views.py:95 | Before any analysis every label counts zero |
| ResponseView.SentimentCounts | assessment/views.py:96-101 | The counting loop builds, for each of the three labels, the sum of the scores carrying it |
| ResponseView.UnknownLabelIgnored | assessment/views.py:100-101 | An analysis whose label is not one of the three leaves the counts unchanged |
| ResponseView.CountsAgreeWithScoring | assessment/views.py:96-101 | On standard labels the counts equal the positive, negative and "else" buckets of the scorer |
| ResponseView.SentimentPercentOf | assessment/views.py:104-111 | With a positive total, the labels of the counts; otherwise the three fixed labels |
| ResponseView.PercentagesSumTo100 | assessment/views.py:103-109 | Values divided by their non-zero total and scaled by 100 sum to 100 |
| ResponseView.PercentagesOfTotal | assessment/views.py:103-109 | With a positive total every percentage times the total is 100 times the value, and the percentages sum to 100 |
| ResponseView.SentimentPercentages | assessment/views.py:104-111 | With a positive total each percentage is the count's share of it times 100, and they sum to 100. Otherwise every label shows 33.3 |
| ResponseView.EmotionPercentOf | assessment/views.py:121-129 | With a positive grand total, the emotions of the totals in order; otherwise the empty dict |
| ResponseView.EmotionPercentages | assessment/views.py:114-129 | With a positive grand total every observed emotion is kept, each with its share times 100, summing to 100. Otherwise the map is empty |
| ResponseView.EmotionSummaryOrder | assessment/views.py:132-136 | The summary holds exactly the percentages, non-increasing, with equal percentages in first-seen order |
| ResponseView.AnalysesOf | assessment/views.py:87 | One analysis per answer |
| ResponseView.SubmitResponses | assessment/views.py:59-136 | A missing scenario or question list restarts. Otherwise the page is re-rendered iff validation fails, with its message. Results are stored only for valid answers, computed as `ResultsOf` the collected answers |
| ResponseView.ResultsOf | assessment/views.py:86-143 | The stored category scores are those of the answers' analyses and demographics. The overall score is their mean |
| ResponseView.StoredResultsConsistent | assessment/views.py:86-143 | Stored results have an overall score in [0, 100], the level that score is interpreted as, the six category names, and the three sentiment labels in display order |

## Left out

- Loading the classifier pipelines and running them: the classifiers are a parameter, total functions from text to the shapes their results take.
- The exceptions the analysis does not catch cannot be written as inputs of the model. Because of that, `Features.AnalyzeSingleResponse` never fails, and `ResponseView.SubmitResponses` always stores results for valid answers. The cases are:
  - an exception raised by the sentiment classifier (assessment/eq_model.py:166);
  - a first list element that is not a dict, whose `.get` raises (assessment/eq_model.py:177);
  - a label that is not a string, whose `.upper()` or `.lower()` raises (assessment/eq_model.py:177, 205 and 233);
  - a score that `float()` cannot convert (assessment/eq_model.py:178, 208, 216, 236 and 243).
- Logging with `print` is not modelled.
- Floating point: all arithmetic is over exact reals.
  - A sum of percentages is exactly 100 here, not only up to rounding.
  - `float(score_value)` on an arbitrary object is an optional conversion that falls back to 0.0.
- `np.mean` is the sum over the number of values.
- The Python distinction between the integer `0`/`100` a clamp can return and a float result is not modelled.
- Case conversion, `.lower()` and `.upper()`, covers ASCII letters only.
- Whitespace for `strip` and `split` is the full set of characters Python's `str.isspace` accepts, including the Unicode spaces.
- The Django plumbing of `response_view` is not modelled. This covers:
  - the GET branch;
  - `render` and `redirect`;
  - `messages`;
  - writing the session.

  The outcome is the `Outcome` datatype instead.
- The session is read as its contents: an optional scenario, an optional question list and the demographics. A missing demographics entry is demographics without an age.
- `result_view`, assessment/forms.py, assessment/urls.py, eq_system/asgi.py and eq_system/wsgi.py are not part of this model.
- The age range of the form is not a precondition: the scorer accepts every integer age.
- An emotion classifier item that is neither a dict nor a list or tuple of at least two elements is the `EmotionItem` shape `ItemOther`. Its contents are not modelled, since it is skipped.
