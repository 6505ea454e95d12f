/**
 * The submission half of `response_view`: one stripped answer is read per
 * question, the answers are validated, and only valid answers are analysed
 * and scored; the analyses are then summarised for display as sentiment
 * percentages over the three standard labels and as emotion percentages
 * sorted from the largest down.
 */
module ResponseView {
  import opened Optional
  import opened Text
  import opened OrderedDict
  import opened Validation
  import opened Features
  import opened Scoring

  // ----- Collecting the answers -----

  /** The form field of the question at 0-based position `i`. */
  function AnswerKey(i: nat): string {
    "answer_" + NatToString(i)
  }

  /** Different questions read different form fields. */
  lemma AnswerKeysDistinct(i: nat, j: nat)
    requires i != j
    ensures AnswerKey(i) != AnswerKey(j)
  {
    if AnswerKey(i) == AnswerKey(j) {
      assert NatToString(i) == AnswerKey(i)[7..];
      assert NatToString(j) == AnswerKey(j)[7..];
      NatToStringInjective(i, j);
    }
  }

  /** `request.POST.get(key, '')`. */
  function PostGet(post: map<string, string>, key: string): string {
    if key in post then post[key] else []
  }

  /** The answer read for question `i`: its form field stripped, or empty when the field is missing. */
  function AnswerOf(post: map<string, string>, i: nat): string {
    if AnswerKey(i) in post then Strip(post[AnswerKey(i)]) else []
  }

  /** The answer is `request.POST.get(key, '').strip()`: stripping the empty default leaves it empty. */
  lemma AnswerOfField(post: map<string, string>, i: nat)
    ensures AnswerOf(post, i) == Strip(PostGet(post, AnswerKey(i)))
  {
    if AnswerKey(i) !in post {
      assert PostGet(post, AnswerKey(i)) == [];
      assert Strip([]) == [];
    }
  }

  /** `[f(0), f(1), ..., f(n - 1)]`. */
  function Tabulate(f: nat -> string, n: nat): (r: seq<string>)
    ensures |r| == n
  {
    if n == 0 then [] else Tabulate(f, n - 1) + [f(n - 1)]
  }

  lemma {:induction false} TabulateAt(f: nat -> string, n: nat, i: nat)
    requires i < n
    ensures Tabulate(f, n)[i] == f(i)
  {
    if i < n - 1 {
      TabulateAt(f, n - 1, i);
    }
  }

  /** The answers read from the form for the first `questionCount` questions, in question order. */
  function CollectedOf(post: map<string, string>, questionCount: nat): (responses: seq<string>)
    ensures |responses| == questionCount
  {
    Tabulate((i: nat) => AnswerOf(post, i), questionCount)
  }

  /** The collected answer at position `i` is the answer read for question `i`. */
  lemma CollectedAt(post: map<string, string>, questionCount: nat, i: nat)
    requires i < questionCount
    ensures CollectedOf(post, questionCount)[i] == AnswerOf(post, i)
  {
    TabulateAt((i: nat) => AnswerOf(post, i), questionCount, i);
  }

  /** The collection loop of `response_view`. */
  method CollectResponses(post: map<string, string>, questionCount: nat) returns (responses: seq<string>)
    ensures responses == CollectedOf(post, questionCount)
  {
    responses := [];
    var i := 0;
    while i < questionCount
      invariant 0 <= i <= questionCount
      invariant responses == CollectedOf(post, i)
    {
      var responseText := Strip(PostGet(post, AnswerKey(i)));
      AnswerOfField(post, i);
      responses := responses + [responseText];
      i := i + 1;
    }
  }

  /** A collected answer is already stripped, and a missing field is collected as an empty answer. */
  lemma CollectedAnswer(post: map<string, string>, i: nat)
    ensures Strip(AnswerOf(post, i)) == AnswerOf(post, i)
    ensures AnswerKey(i) !in post ==> AnswerOf(post, i) == []
  {
    AnswerOfField(post, i);
    StripIdempotent(PostGet(post, AnswerKey(i)));
  }

  /** An empty form fails validation on its first answer, reported as empty. */
  lemma EmptyFormRejected(questionCount: nat)
    requires questionCount > 0
    ensures FirstFailure(CollectedOf(map[], questionCount)) == Some(EmptyAnswer(1))
  {
    var responses := CollectedOf(map[], questionCount);
    CollectedAt(map[], questionCount, 0);
    CollectedAnswer(map[], 0);
    assert IsBlank(responses[0]);
    FirstFailureSpec(responses);
  }

  // ----- Sentiment summary -----

  const Positive: string := "POSITIVE"
  const Negative: string := "NEGATIVE"
  const Neutral: string := "NEUTRAL"

  /** The keys of the sentiment summary, in display order. */
  const SentimentKeys: seq<string> := [Positive, Negative, Neutral]

  lemma SentimentKeysDistinct()
    ensures forall i, j | 0 <= i < j < |SentimentKeys| :: SentimentKeys[i] != SentimentKeys[j]
  {
    assert Positive[0] != Negative[0];
    assert |Neutral| != |Positive| && |Neutral| != |Negative|;
  }

  /** A dict over the three labels, in display order, holding the given values. */
  function LabelDict(values: seq<real>): (d: Dict)
    requires |values| == |SentimentKeys|
    ensures d.keys == SentimentKeys
    ensures forall i | 0 <= i < |SentimentKeys| :: SentimentKeys[i] in d.vals && d.vals[SentimentKeys[i]] == values[i]
  {
    var ps := seq(|SentimentKeys|, i requires 0 <= i < |SentimentKeys| => (SentimentKeys[i], values[i]));
    SentimentKeysDistinct();
    FromPairsDistinct(ps);
    assert KeysOf(ps) == SentimentKeys;
    FromPairs(ps)
  }

  /** `sentiment_counts`: the scores summed per standard label; any other label is ignored. */
  function SentimentCountsOf(analyses: seq<Analysis>): Dict {
    LabelDict(seq(|SentimentKeys|, i requires 0 <= i < |SentimentKeys| => LabelSum(analyses, SentimentKeys[i])))
  }

  /** One more analysis adds its score to the count of its own label, and to no other. */
  lemma LabelSumSnoc(analyses: seq<Analysis>, a: Analysis, name: string)
    ensures LabelSum(analyses + [a], name) == LabelSum(analyses, name) + (if a.sentimentLabel == name then a.sentimentScore else 0.0)
  {
    assert (analyses + [a])[..|analyses|] == analyses;
  }

  /** The body of the counting loop: the score is added only when its label is already a key. */
  method CountSentiment(counts: Dict, sentiment: string, score: real) returns (r: Dict)
    ensures r.keys == counts.keys
    ensures forall k | k in counts.vals :: k in r.vals && r.vals[k] == counts.vals[k] + (if k == sentiment then score else 0.0)
  {
    r := counts;
    if sentiment in counts.vals {
      r := Put(counts, sentiment, counts.vals[sentiment] + score);
    }
  }

  /** One more analysis adds its score to the count of its own label, if that is one of the three, and to no other. */
  lemma CountsSnoc(analyses: seq<Analysis>, a: Analysis)
    ensures SentimentCountsOf(analyses + [a]).keys == SentimentCountsOf(analyses).keys
    ensures forall k | k in SentimentCountsOf(analyses).vals ::
      && k in SentimentCountsOf(analyses + [a]).vals
      && SentimentCountsOf(analyses + [a]).vals[k] ==
           SentimentCountsOf(analyses).vals[k] + (if k == a.sentimentLabel then a.sentimentScore else 0.0)
  {
    var before, after := SentimentCountsOf(analyses), SentimentCountsOf(analyses + [a]);
    forall k | k in before.vals
      ensures k in after.vals && after.vals[k] == before.vals[k] + (if k == a.sentimentLabel then a.sentimentScore else 0.0)
    {
      assert k in before.keys;
      var n :| 0 <= n < |SentimentKeys| && SentimentKeys[n] == k;
      LabelSumSnoc(analyses, a, k);
    }
  }

  /** A counting step that adds one analysis' score to its label yields the counts of the longer sequence. */
  lemma CountStep(analyses: seq<Analysis>, a: Analysis, before: Dict, after: Dict)
    requires before == SentimentCountsOf(analyses)
    requires after.keys == before.keys
    requires forall k | k in before.vals ::
      k in after.vals && after.vals[k] == before.vals[k] + (if k == a.sentimentLabel then a.sentimentScore else 0.0)
    ensures after == SentimentCountsOf(analyses + [a])
  {
    var next := SentimentCountsOf(analyses + [a]);
    CountsSnoc(analyses, a);
    forall k | k in after.vals ensures k in next.vals && after.vals[k] == next.vals[k] {
      assert k in before.vals;
    }
    SameEntries(after, next);
  }

  /** Before any analysis every label counts zero. */
  lemma NoCounts()
    ensures LabelDict([0.0, 0.0, 0.0]) == SentimentCountsOf([])
  {
    var zero, none := LabelDict([0.0, 0.0, 0.0]), SentimentCountsOf([]);
    forall k | k in zero.vals ensures k in none.vals && zero.vals[k] == none.vals[k] {
      assert k in zero.keys;
      var n :| 0 <= n < |SentimentKeys| && SentimentKeys[n] == k;
    }
    SameEntries(zero, none);
  }

  /** The counting loop, over the dict initialised to zero for the three labels. */
  method SentimentCounts(analyses: seq<Analysis>) returns (counts: Dict)
    ensures counts == SentimentCountsOf(analyses)
  {
    counts := LabelDict([0.0, 0.0, 0.0]);
    NoCounts();
    assert analyses[..0] == [];
    var i := 0;
    while i < |analyses|
      invariant 0 <= i <= |analyses|
      invariant counts == SentimentCountsOf(analyses[..i])
    {
      ghost var before := counts;
      counts := CountSentiment(counts, analyses[i].sentimentLabel, analyses[i].sentimentScore);
      CountStep(analyses[..i], analyses[i], before, counts);
      assert analyses[..i + 1] == analyses[..i] + [analyses[i]];
      i := i + 1;
    }
    assert analyses[..i] == analyses;
  }

  /** The percentage shown for each label when the sentiment total is not positive. */
  const FallbackPercent: real := 33.3

  /** `sentiment_percent`: each count as a percentage of the total, or 33.3 for every label. */
  function SentimentPercentOf(counts: Dict): (d: Dict)
    ensures SumValues(counts) > 0.0 ==> d.keys == counts.keys
    ensures SumValues(counts) <= 0.0 ==> d.keys == SentimentKeys
  {
    var total := SumValues(counts);
    if total > 0.0 then MapValues(counts, v => (v / total) * 100.0)
    else LabelDict([FallbackPercent, FallbackPercent, FallbackPercent])
  }

  /** Values divided by their non-zero sum and scaled by 100 sum to 100. */
  lemma PercentagesSumTo100(keys: seq<string>, vals: map<string, real>, percent: map<string, real>)
    requires forall k | k in keys :: k in vals
    requires SumOver(keys, vals) != 0.0
    requires forall k | k in vals :: k in percent && percent[k] == (vals[k] / SumOver(keys, vals)) * 100.0
    ensures SumOver(keys, percent) == 100.0
  {
    var g := SumOver(keys, vals);
    var shares := map k | k in vals :: vals[k] / g;
    SharesSumToOne(keys, vals, shares);
    SumOverScaled(keys, shares, percent, 100.0);
  }

  lemma ShareTimesTotal(v: real, total: real)
    requires total != 0.0
    ensures ((v / total) * 100.0) * total == v * 100.0
  {
  }

  /**
   * Percentages of a positive total: each value's share of the total, times
   * 100, the whole adding up to 100.
   */
  lemma PercentagesOfTotal(d: Dict, percent: Dict)
    requires SumValues(d) > 0.0
    requires percent.keys == d.keys
    requires forall k | k in d.vals :: k in percent.vals && percent.vals[k] == (d.vals[k] / SumValues(d)) * 100.0
    ensures SumValues(percent) == 100.0
    ensures forall k | k in d.vals :: percent.vals[k] * SumValues(d) == d.vals[k] * 100.0
  {
    PercentagesSumTo100(d.keys, d.vals, percent.vals);
    forall k | k in d.vals ensures percent.vals[k] * SumValues(d) == d.vals[k] * 100.0 {
      ShareTimesTotal(d.vals[k], SumValues(d));
    }
  }

  /**
   * With a positive total the percentages are each count's share of it and
   * add up to 100; otherwise every label shows 33.3.
   */
  lemma SentimentPercentages(counts: Dict)
    ensures var total := SumValues(counts);
      var d := SentimentPercentOf(counts);
      && (total > 0.0 ==>
            && SumValues(d) == 100.0
            && forall k | k in counts.vals :: k in d.vals && d.vals[k] * total == counts.vals[k] * 100.0)
      && (total <= 0.0 ==> forall k | k in d.vals :: d.vals[k] == FallbackPercent)
  {
    var d := SentimentPercentOf(counts);
    if SumValues(counts) > 0.0 {
      PercentagesOfTotal(counts, d);
    } else {
      assert d == LabelDict([FallbackPercent, FallbackPercent, FallbackPercent]);
      forall k | k in d.vals ensures d.vals[k] == FallbackPercent {
        assert k in d.keys;
        var n :| 0 <= n < |SentimentKeys| && SentimentKeys[n] == k;
      }
    }
  }

  /** A label outside the three standard ones is not counted. */
  lemma UnknownLabelIgnored(analyses: seq<Analysis>, a: Analysis)
    requires !StandardSentiment(a.sentimentLabel)
    ensures SentimentCountsOf(analyses + [a]) == SentimentCountsOf(analyses)
  {
    CountsSnoc(analyses, a);
    assert a.sentimentLabel !in SentimentCountsOf(analyses).vals;
    SameEntries(SentimentCountsOf(analyses + [a]), SentimentCountsOf(analyses));
  }

  /**
   * The display counts and the scorer's buckets agree on analyses produced
   * by `analyze_single_response`, whose labels are always standard.
   */
  lemma {:induction false} CountsAgreeWithScoring(analyses: seq<Analysis>)
    requires forall i | 0 <= i < |analyses| :: StandardSentiment(analyses[i].sentimentLabel)
    ensures SentimentCountsOf(analyses).vals[Positive] == LabelSum(analyses, "POSITIVE")
    ensures SentimentCountsOf(analyses).vals[Negative] == LabelSum(analyses, "NEGATIVE")
    ensures SentimentCountsOf(analyses).vals[Neutral] == OtherSum(analyses)
  {
    OtherSumIsNeutral(analyses);
  }

  // ----- Emotion summary -----

  /** `emotion_percent` before sorting: each total as a percentage of the grand total, or nothing. */
  function EmotionPercentOf(totals: Dict): (d: Dict)
    ensures SumValues(totals) > 0.0 ==> d.keys == totals.keys
    ensures SumValues(totals) <= 0.0 ==> d == Empty
  {
    var grand := SumValues(totals);
    if grand > 0.0 then MapValues(totals, v => (v / grand) * 100.0) else Empty
  }

  /** `dict(sorted(emotion_percent.items(), key=lambda x: x[1], reverse=True))`. */
  function EmotionSummaryOf(totals: Dict): Dict {
    SortedByValue(EmotionPercentOf(totals))
  }

  /**
   * With a positive grand total every emotion is kept, with its total's share
   * of the grand total, and the shares add up to 100; otherwise nothing is
   * shown.
   */
  lemma EmotionPercentages(totals: Dict)
    ensures var grand := SumValues(totals);
      var percent := EmotionPercentOf(totals);
      && (grand > 0.0 ==>
            && percent.vals.Keys == totals.vals.Keys
            && SumValues(percent) == 100.0
            && forall k | k in totals.vals :: percent.vals[k] * grand == totals.vals[k] * 100.0)
      && (grand <= 0.0 ==> percent.keys == [])
  {
    if SumValues(totals) > 0.0 {
      PercentagesOfTotal(totals, EmotionPercentOf(totals));
    }
  }

  /**
   * The summary holds exactly the percentages, listed from the largest down,
   * with equal percentages in the order their emotions were first seen.
   */
  lemma EmotionSummaryOrder(totals: Dict)
    ensures EmotionSummaryOf(totals).vals == EmotionPercentOf(totals).vals
    ensures var summary := EmotionSummaryOf(totals);
      forall i, j | 0 <= i < j < |summary.keys| :: summary.vals[summary.keys[i]] >= summary.vals[summary.keys[j]]
    ensures forall v :: WithValue(Items(EmotionSummaryOf(totals)), v) == WithValue(Items(EmotionPercentOf(totals)), v)
  {
    SortedByValueEntries(EmotionPercentOf(totals));
    SortedByValueOrder(EmotionPercentOf(totals));
  }

  // ----- The whole submission -----

  /** What `response_view` stores in the session after a valid submission. */
  datatype Results = Results(
    categoryScores: Dict,
    overallScore: real,
    eqLevel: string,
    sentimentPercent: Dict,
    emotionPercent: Dict)

  /**
   * A submission is sent back to the start when the session has no scenario
   * or no questions, re-renders the questions with the validation error, or
   * stores results.
   */
  datatype Outcome = Restart | Rerender(errorMessage: Option<string>) | Stored(results: Results)

  /** What the session holds when the questions are answered; missing demographics read as no age. */
  datatype Session = Session(scenario: Option<string>, questions: Option<seq<string>>, demographics: Demographics)

  /** One analysis per response, in order. */
  function AnalysesOf(responses: seq<string>, classifiers: Classifiers): (analyses: seq<Analysis>)
    ensures |analyses| == |responses|
  {
    seq(|responses|, i requires 0 <= i < |responses| => AnalysisOf(responses[i], classifiers))
  }

  /** The results of valid answers. */
  function ResultsOf(responses: seq<string>, demographics: Demographics, classifiers: Classifiers): (r: Results)
    ensures r.categoryScores == CategoryScoresOf(AnalysesOf(responses, classifiers), demographics)
    ensures r.overallScore * 6.0 == SumValues(r.categoryScores)
  {
    var analyses := AnalysesOf(responses, classifiers);
    var categoryScores := CategoryScoresOf(analyses, demographics);
    var overall := OverallOf(categoryScores);
    Results(categoryScores, overall, InterpretOverallEq(overall),
            SentimentPercentOf(SentimentCountsOf(analyses)), EmotionSummaryOf(EmotionTotalsOf(analyses)))
  }

  /**
   * The POST branch of `response_view`: without a scenario and questions in
   * the session the user is sent back to the start; otherwise one answer is
   * read per question, the scores are computed only when every answer passes
   * validation, and the first failure's message is shown with the questions
   * when one does not.
   */
  method SubmitResponses(session: Session, post: map<string, string>, classifiers: Classifiers)
    returns (outcome: Outcome)
    ensures outcome.Restart? <==> session.scenario == None || session.questions == None
    ensures !outcome.Restart? ==>
      var responses := CollectedOf(post, |session.questions.value|);
      && (outcome.Rerender? <==> FirstFailure(responses) != None)
      && (outcome.Rerender? ==> outcome.errorMessage == Some(Message(FirstFailure(responses).value)))
      && (outcome.Stored? ==> outcome.results == ResultsOf(responses, session.demographics, classifiers))
  {
    if session.scenario == None || session.questions == None {
      return Restart;
    }
    var responses := CollectResponses(post, |session.questions.value|);
    var isValid, errorMessage := ValidateResponses(responses);
    if !isValid {
      return Rerender(errorMessage);
    }
    var analyses := AnalyzeResponses(responses, classifiers);
    assert analyses == AnalysesOf(responses, classifiers);
    var categoryScores, overallScore := CalculateEqScores(analyses, session.demographics);
    var eqLevel := InterpretOverallEq(overallScore);
    var counts := SentimentCounts(analyses);
    var sentimentPercent := SentimentPercentOf(counts);
    var totals := EmotionTotals(analyses);
    var emotionPercent := EmotionSummaryOf(totals);
    return Stored(Results(categoryScores, overallScore, eqLevel, sentimentPercent, emotionPercent));
  }

  /** Stored results always carry an overall score in [0, 100] and the level that score is interpreted as. */
  lemma StoredResultsConsistent(responses: seq<string>, demographics: Demographics, classifiers: Classifiers)
    ensures var r := ResultsOf(responses, demographics, classifiers);
      && 0.0 <= r.overallScore <= 100.0
      && r.eqLevel == InterpretOverallEq(r.overallScore)
      && r.categoryScores.keys == CategoryNames
      && r.sentimentPercent.keys == [Positive, Negative, Neutral]
  {
  }
}
