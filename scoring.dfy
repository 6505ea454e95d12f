/**
 * Aggregation and scoring (`calculate_eq_scores`, `interpret_overall_eq`):
 * the analyses' sentiment scores are summed per label and divided by the
 * number of responses, their emotion scores are totalled per label and
 * normalised into ratios, six fixed linear formulas turn the ratios into
 * category scores, age nudges two of them, each is clamped to [0, 100], and
 * their mean is the overall score.
 */
module Scoring {
  import opened Optional
  import opened OrderedDict
  import opened Features

  /** The demographics dict; only `age` is read, and a missing one counts as 30. */
  datatype Demographics = Demographics(age: Option<int>, gender: string, profession: string)

  const DefaultAge: int := 30

  // ----- Sentiment aggregation -----

  /** The sentiment scores of the analyses labelled exactly `name`, summed in order. */
  function LabelSum(analyses: seq<Analysis>, name: string): real {
    if analyses == [] then 0.0
    else
      var last := analyses[|analyses| - 1];
      LabelSum(analyses[..|analyses| - 1], name) + (if last.sentimentLabel == name then last.sentimentScore else 0.0)
  }

  /** The sentiment scores of the analyses labelled neither `POSITIVE` nor `NEGATIVE`: the neutral bucket. */
  function OtherSum(analyses: seq<Analysis>): real {
    if analyses == [] then 0.0
    else
      var last := analyses[|analyses| - 1];
      OtherSum(analyses[..|analyses| - 1])
      + (if last.sentimentLabel != "POSITIVE" && last.sentimentLabel != "NEGATIVE" then last.sentimentScore else 0.0)
  }

  /** All sentiment scores, summed. */
  function ScoreSum(analyses: seq<Analysis>): real {
    if analyses == [] then 0.0 else ScoreSum(analyses[..|analyses| - 1]) + analyses[|analyses| - 1].sentimentScore
  }

  /** The three buckets split every sentiment score between them, each score counted once. */
  lemma {:induction false} BucketsPartition(analyses: seq<Analysis>)
    ensures LabelSum(analyses, "POSITIVE") + LabelSum(analyses, "NEGATIVE") + OtherSum(analyses) == ScoreSum(analyses)
  {
    if analyses != [] {
      BucketsPartition(analyses[..|analyses| - 1]);
    }
  }

  /** When every label is standard, the neutral bucket holds exactly the `NEUTRAL` scores. */
  lemma {:induction false} OtherSumIsNeutral(analyses: seq<Analysis>)
    requires forall i | 0 <= i < |analyses| :: StandardSentiment(analyses[i].sentimentLabel)
    ensures OtherSum(analyses) == LabelSum(analyses, "NEUTRAL")
  {
    if analyses != [] {
      var init := analyses[..|analyses| - 1];
      assert forall i | 0 <= i < |init| :: init[i] == analyses[i];
      OtherSumIsNeutral(init);
    }
  }

  /** Scores that are probabilities sum to no more than the number of analyses, and the buckets are not negative. */
  lemma {:induction false} ProbabilitySums(analyses: seq<Analysis>)
    requires forall i | 0 <= i < |analyses| :: 0.0 <= analyses[i].sentimentScore <= 1.0
    ensures 0.0 <= ScoreSum(analyses) <= |analyses| as real
    ensures 0.0 <= LabelSum(analyses, "POSITIVE") && 0.0 <= LabelSum(analyses, "NEGATIVE") && 0.0 <= OtherSum(analyses)
  {
    if analyses != [] {
      var init := analyses[..|analyses| - 1];
      assert forall i | 0 <= i < |init| :: init[i] == analyses[i];
      ProbabilitySums(init);
    }
  }

  /** The positive, negative and neutral ratios. */
  datatype SentimentRatios = SentimentRatios(positive: real, negative: real, neutral: real)

  /** The ratio used for each label when there are no analyses. */
  const FallbackRatio: real := 0.33

  /**
   * Each bucket's sum divided by the number of analyses, the neutral bucket
   * taking every label other than `POSITIVE` and `NEGATIVE`; 0.33 for all
   * three when there are none.
   */
  function SentimentRatiosOf(analyses: seq<Analysis>): (r: SentimentRatios)
    ensures analyses != [] ==>
      && r.positive * |analyses| as real == LabelSum(analyses, "POSITIVE")
      && r.negative * |analyses| as real == LabelSum(analyses, "NEGATIVE")
      && r.neutral * |analyses| as real == OtherSum(analyses)
    ensures analyses == [] ==> r == SentimentRatios(FallbackRatio, FallbackRatio, FallbackRatio)
  {
    if |analyses| > 0 then
      var n := |analyses| as real;
      SentimentRatios(LabelSum(analyses, "POSITIVE") / n, LabelSum(analyses, "NEGATIVE") / n, OtherSum(analyses) / n)
    else
      SentimentRatios(FallbackRatio, FallbackRatio, FallbackRatio)
  }

  /** A non-negative share of at most the whole is a fraction between 0 and 1. */
  lemma Fraction(x: real, n: real)
    requires 0.0 < n && 0.0 <= x <= n
    ensures 0.0 <= x / n <= 1.0
  {
  }

  /** With probability scores, the three ratios are not negative and sum to at most 1. */
  lemma SentimentRatiosBounded(analyses: seq<Analysis>)
    requires forall i | 0 <= i < |analyses| :: 0.0 <= analyses[i].sentimentScore <= 1.0
    ensures var r := SentimentRatiosOf(analyses);
      0.0 <= r.positive && 0.0 <= r.negative && 0.0 <= r.neutral && r.positive + r.negative + r.neutral <= 1.0
  {
    if analyses != [] {
      var n := |analyses| as real;
      var p, q, o := LabelSum(analyses, "POSITIVE"), LabelSum(analyses, "NEGATIVE"), OtherSum(analyses);
      ProbabilitySums(analyses);
      BucketsPartition(analyses);
      assert SentimentRatiosOf(analyses) == SentimentRatios(p / n, q / n, o / n);
      SumOfShares(p, q, o, n);
    }
  }

  lemma SumOfShares(p: real, q: real, o: real, n: real)
    requires 0.0 < n && 0.0 <= p && 0.0 <= q && 0.0 <= o && p + q + o <= n
    ensures 0.0 <= p / n && 0.0 <= q / n && 0.0 <= o / n && p / n + q / n + o / n <= 1.0
  {
    assert p / n + q / n + o / n == (p + q + o) / n;
    Fraction(p + q + o, n);
  }

  // ----- Emotion aggregation -----

  /** `totals[label] += score`, a new label starting from 0.0. */
  function AddScore(totals: Dict, p: (string, real)): Dict {
    Put(totals, p.0, Get(totals, p.0, 0.0) + p.1)
  }

  /** The totals after adding each pair, in order. */
  function AddAll(totals: Dict, ps: seq<(string, real)>): Dict {
    if ps == [] then totals else AddScore(AddAll(totals, ps[..|ps| - 1]), ps[|ps| - 1])
  }

  /** `emotion_totals`: every analysis's emotion scores added, analysis by analysis. */
  function EmotionTotalsOf(analyses: seq<Analysis>): Dict {
    if analyses == [] then Empty
    else AddAll(EmotionTotalsOf(analyses[..|analyses| - 1]), Items(analyses[|analyses| - 1].emotionScores))
  }

  /** The sum of the values paired with `k`. */
  function PairSum(ps: seq<(string, real)>, k: string): real {
    if ps == [] then 0.0
    else PairSum(ps[..|ps| - 1], k) + (if ps[|ps| - 1].0 == k then ps[|ps| - 1].1 else 0.0)
  }

  /** The score of emotion `k` summed over the analyses, 0.0 where an analysis lacks it. */
  function ColumnSum(analyses: seq<Analysis>, k: string): real {
    if analyses == [] then 0.0
    else ColumnSum(analyses[..|analyses| - 1], k) + Get(analyses[|analyses| - 1].emotionScores, k, 0.0)
  }

  /** Every emotion label some analysis has. */
  function ObservedEmotions(analyses: seq<Analysis>): set<string> {
    if analyses == [] then {}
    else ObservedEmotions(analyses[..|analyses| - 1]) + analyses[|analyses| - 1].emotionScores.vals.Keys
  }

  /** Adding pairs adds, to each label's total, the values paired with it. */
  lemma {:induction false} AddAllAt(totals: Dict, ps: seq<(string, real)>, k: string)
    ensures Get(AddAll(totals, ps), k, 0.0) == Get(totals, k, 0.0) + PairSum(ps, k)
  {
    if ps != [] {
      AddAllAt(totals, ps[..|ps| - 1], k);
    }
  }

  /** Adding pairs gives a total to exactly the labels already there and the labels of the pairs. */
  lemma {:induction false} AddAllKeys(totals: Dict, ps: seq<(string, real)>)
    ensures AddAll(totals, ps).vals.Keys == totals.vals.Keys + KeySet(ps)
  {
    if ps != [] {
      var init, last := ps[..|ps| - 1], ps[|ps| - 1];
      AddAllKeys(totals, init);
      assert ps == init + [last];
      KeySetAppend(init, [last]);
      assert KeySet([last]) == {last.0} by {
        assert [last][0].0 == last.0;
      }
    }
  }

  /** Without repeated labels, the values paired with `k` are the one value `dict(pairs)` gives it. */
  lemma {:induction false} PairSumOfDistinct(ps: seq<(string, real)>, k: string)
    requires DistinctKeys(ps)
    ensures PairSum(ps, k) == Get(FromPairs(ps), k, 0.0)
  {
    if ps != [] {
      var init, last := ps[..|ps| - 1], ps[|ps| - 1];
      assert DistinctKeys(init) by {
        assert forall i | 0 <= i < |init| :: init[i] == ps[i];
      }
      PairSumOfDistinct(init, k);
      if last.0 == k {
        FromPairsKeys(init);
        forall i | 0 <= i < |init| ensures init[i].0 != k {
          assert init[i] == ps[i];
        }
      }
    }
  }

  /** Summing the items a dict has for `k` gives its value for `k`, or 0.0. */
  lemma PairSumItems(d: Dict, k: string)
    ensures PairSum(Items(d), k) == Get(d, k, 0.0)
  {
    ItemsDistinct(d);
    PairSumOfDistinct(Items(d), k);
    FromPairsItems(d);
  }

  /** Each emotion's total is its score summed over all analyses, 0.0 for an analysis without it. */
  lemma {:induction false} EmotionTotalsAt(analyses: seq<Analysis>, k: string)
    ensures Get(EmotionTotalsOf(analyses), k, 0.0) == ColumnSum(analyses, k)
  {
    if analyses != [] {
      var last := analyses[|analyses| - 1];
      EmotionTotalsAt(analyses[..|analyses| - 1], k);
      AddAllAt(EmotionTotalsOf(analyses[..|analyses| - 1]), Items(last.emotionScores), k);
      PairSumItems(last.emotionScores, k);
    }
  }

  /** The totals have a label exactly when some analysis has that emotion. */
  lemma {:induction false} EmotionTotalsKeys(analyses: seq<Analysis>)
    ensures EmotionTotalsOf(analyses).vals.Keys == ObservedEmotions(analyses)
  {
    if analyses != [] {
      var last := analyses[|analyses| - 1];
      EmotionTotalsKeys(analyses[..|analyses| - 1]);
      AddAllKeys(EmotionTotalsOf(analyses[..|analyses| - 1]), Items(last.emotionScores));
      ItemsEntries(last.emotionScores);
    }
  }

  /** The body of the inner loop: a label new to the totals is first set to 0.0, then the score is added. */
  method AddScoreStep(totals: Dict, emotion: string, score: real) returns (r: Dict)
    ensures r == AddScore(totals, (emotion, score))
  {
    r := totals;
    if emotion !in r.vals {
      r := Put(r, emotion, 0.0);
    }
    r := Put(r, emotion, Get(r, emotion, 0.0) + score);
  }

  /** The inner loop of the aggregation: one analysis's emotion scores added to the totals. */
  method AddScores(totals: Dict, scores: Dict) returns (r: Dict)
    ensures r == AddAll(totals, Items(scores))
  {
    r := totals;
    ghost var items := Items(scores);
    var j := 0;
    while j < |scores.keys|
      invariant 0 <= j <= |scores.keys|
      invariant r == AddAll(totals, items[..j])
    {
      var emotion := scores.keys[j];
      var score := scores.vals[emotion];
      r := AddScoreStep(r, emotion, score);
      assert items[j] == (emotion, score);
      assert items[..j + 1][..j] == items[..j];
      j := j + 1;
    }
    assert items[..j] == items;
  }

  /** The emotion totals of a list of analyses, as `response_view` also computes them. */
  method EmotionTotals(analyses: seq<Analysis>) returns (totals: Dict)
    ensures totals == EmotionTotalsOf(analyses)
  {
    totals := Empty;
    var i := 0;
    while i < |analyses|
      invariant 0 <= i <= |analyses|
      invariant totals == EmotionTotalsOf(analyses[..i])
    {
      totals := AddScores(totals, analyses[i].emotionScores);
      assert analyses[..i + 1][..i] == analyses[..i];
      i := i + 1;
    }
    assert analyses[..i] == analyses;
  }

  // ----- Emotion ratios -----

  /**
   * `emotion_ratios`: each total divided by the grand total when that is
   * positive, and otherwise the same share `1 / len(totals)` for every
   * label; the labels and their order are those of the totals.
   */
  function EmotionRatiosOf(totals: Dict): (r: Dict)
    ensures r.keys == totals.keys
    ensures SumValues(totals) > 0.0 ==>
      forall k | k in totals.vals :: k in r.vals && r.vals[k] * SumValues(totals) == totals.vals[k]
    ensures SumValues(totals) <= 0.0 ==>
      forall k | k in totals.vals :: k in r.vals && r.vals[k] * |totals.keys| as real == 1.0
  {
    if SumValues(totals) > 0.0 then SharesOfTotal(totals, SumValues(totals)) else EvenShares(totals)
  }

  /** Every total divided by the grand total. */
  function SharesOfTotal(totals: Dict, grand: real): (r: Dict)
    requires grand != 0.0
    ensures r.keys == totals.keys
    ensures forall k | k in totals.vals :: k in r.vals && r.vals[k] == totals.vals[k] / grand
    ensures forall k | k in totals.vals :: k in r.vals && r.vals[k] * grand == totals.vals[k]
  {
    var r := MapValues(totals, v => v / grand);
    forall k | k in totals.vals ensures r.vals[k] * grand == totals.vals[k] {
      DivTimes(totals.vals[k], grand);
    }
    r
  }

  /** The same share, one over the number of emotions, for every emotion. */
  function EvenShares(totals: Dict): (r: Dict)
    ensures r.keys == totals.keys
    ensures forall k | k in totals.vals :: k in r.vals && r.vals[k] * |totals.keys| as real == 1.0
  {
    var r := MapValues(totals, v => if |totals.keys| > 0 then 1.0 / |totals.keys| as real else 0.0);
    if |totals.keys| > 0 then
      DivTimes(1.0, |totals.keys| as real);
      r
    else
      r
  }

  lemma DivTimes(v: real, g: real)
    requires g != 0.0
    ensures v / g * g == v
  {
  }

  /** Whichever branch is taken, the ratios of a non-empty totals dict sum to 1. */
  lemma EmotionRatiosSumToOne(totals: Dict)
    requires totals.keys != []
    ensures SumValues(EmotionRatiosOf(totals)) == 1.0
  {
    if SumValues(totals) > 0.0 {
      ScaledRatiosSumToOne(totals);
    } else {
      UniformRatiosSumToOne(totals);
    }
  }

  lemma ScaledRatiosSumToOne(totals: Dict)
    requires SumValues(totals) > 0.0
    ensures SumValues(EmotionRatiosOf(totals)) == 1.0
  {
    var grand := SumValues(totals);
    var r := EmotionRatiosOf(totals);
    assert forall k | k in totals.vals :: k in r.vals && r.vals[k] == totals.vals[k] / grand;
    SharesSumToOne(totals.keys, totals.vals, r.vals);
  }

  /** Values divided by their own non-zero sum sum to 1. */
  lemma SharesSumToOne(keys: seq<string>, vals: map<string, real>, shares: map<string, real>)
    requires forall k | k in keys :: k in vals
    requires SumOver(keys, vals) != 0.0
    requires forall k | k in vals :: k in shares && shares[k] == vals[k] / SumOver(keys, vals)
    ensures SumOver(keys, shares) == 1.0
  {
    var g := SumOver(keys, vals);
    SumOverDivided(keys, vals, shares, g);
    SelfDivide(g);
  }

  lemma SelfDivide(g: real)
    requires g != 0.0
    ensures g / g == 1.0
  {
  }

  lemma DivAdd(a: real, b: real, g: real)
    requires g != 0.0
    ensures (a + b) / g == a / g + b / g
  {
  }

  /** Dividing every value by `g` divides the sum by `g`. */
  lemma {:induction false} SumOverDivided(keys: seq<string>, vals: map<string, real>, shares: map<string, real>, g: real)
    requires g != 0.0
    requires forall k | k in keys :: k in vals
    requires forall k | k in vals :: k in shares && shares[k] == vals[k] / g
    ensures forall k | k in keys :: k in shares
    ensures SumOver(keys, shares) == SumOver(keys, vals) / g
  {
    if keys != [] {
      var init, last := keys[..|keys| - 1], keys[|keys| - 1];
      assert forall k | k in init :: k in keys;
      SumOverDivided(init, vals, shares, g);
      DivAdd(SumOver(init, vals), vals[last], g);
    }
  }

  lemma UniformRatiosSumToOne(totals: Dict)
    requires totals.keys != [] && SumValues(totals) <= 0.0
    ensures SumValues(EmotionRatiosOf(totals)) == 1.0
  {
    var r := EmotionRatiosOf(totals);
    var n := |totals.keys| as real;
    var c := 1.0 / n;
    SumOverConstant(totals.keys, r.vals, c);
    assert n * c == 1.0;
  }

  /** No totals, no ratios. */
  lemma NoTotalsNoRatios()
    ensures EmotionRatiosOf(Empty) == Empty
  {
  }

  /** An emotion no analysis has reads as a ratio of 0.0. */
  lemma MissingEmotionReadsZero(analyses: seq<Analysis>, e: string)
    requires e !in ObservedEmotions(analyses)
    ensures Get(EmotionRatiosOf(EmotionTotalsOf(analyses)), e, 0.0) == 0.0
  {
    EmotionTotalsKeys(analyses);
  }

  /** The normalisation step of `calculate_eq_scores`: a loop when the grand total is positive, the uniform share otherwise. */
  method NormaliseEmotions(totals: Dict) returns (ratios: Dict)
    ensures ratios == EmotionRatiosOf(totals)
  {
    var grand := SumValues(totals);
    if grand > 0.0 {
      var keys := totals.keys;
      ratios := Empty;
      var i := 0;
      while i < |keys|
        invariant 0 <= i <= |keys|
        invariant ratios.keys == keys[..i]
        invariant forall k :: k in ratios.vals <==> k in keys[..i]
        invariant forall k | k in ratios.vals :: ratios.vals[k] == totals.vals[k] / grand
      {
        assert keys[i] !in keys[..i];
        ratios := Put(ratios, keys[i], totals.vals[keys[i]] / grand);
        assert keys[..i + 1] == keys[..i] + [keys[i]];
        i := i + 1;
      }
      assert keys[..i] == keys;
      SameEntries(ratios, EmotionRatiosOf(totals));
    } else {
      ratios := MapValues(totals, v => if |totals.keys| > 0 then 1.0 / |totals.keys| as real else 0.0);
    }
  }

  // ----- Category scores -----

  const SelfAwareness: string := "self_awareness"
  const EmotionalResilience: string := "emotional_resilience"
  const ConflictResolution: string := "conflict_resolution"
  const CulturalAwareness: string := "cultural_awareness"
  const Empathy: string := "empathy"
  const StressManagement: string := "stress_management"

  /** The six categories, in the order the result dict lists them. */
  const CategoryNames: seq<string> :=
    [SelfAwareness, EmotionalResilience, ConflictResolution, CulturalAwareness, Empathy, StressManagement]

  lemma CategoryNamesDistinct()
    ensures forall i, j | 0 <= i < j < |CategoryNames| :: CategoryNames[i] != CategoryNames[j]
  {
    assert |CategoryNames[0]| == 14 && |CategoryNames[1]| == 20 && |CategoryNames[2]| == 19;
    assert |CategoryNames[3]| == 18 && |CategoryNames[4]| == 7 && |CategoryNames[5]| == 17;
  }

  /** The result dict: the six category names in order, holding the given scores. */
  function CategoryDict(values: seq<real>): (d: Dict)
    requires |values| == |CategoryNames|
    ensures d.keys == CategoryNames
    ensures forall i | 0 <= i < |CategoryNames| :: CategoryNames[i] in d.vals && d.vals[CategoryNames[i]] == values[i]
  {
    var ps := seq(|CategoryNames|, i requires 0 <= i < |CategoryNames| => (CategoryNames[i], values[i]));
    CategoryNamesDistinct();
    FromPairsDistinct(ps);
    assert KeysOf(ps) == CategoryNames;
    FromPairs(ps)
  }

  /** Scores that all lie in [0, 100] give a dict whose every value lies in [0, 100]. */
  lemma CategoryDictBounds(values: seq<real>)
    requires |values| == |CategoryNames| && forall i | 0 <= i < |values| :: 0.0 <= values[i] <= 100.0
    ensures forall k | k in CategoryDict(values).vals :: 0.0 <= CategoryDict(values).vals[k] <= 100.0
  {
    var d := CategoryDict(values);
    forall k | k in d.vals ensures 0.0 <= d.vals[k] <= 100.0 {
      var i :| 0 <= i < |CategoryNames| && CategoryNames[i] == k;
    }
  }

  /** The sum of the result dict's values is the sum of the six scores. */
  lemma CategoryDictSum(values: seq<real>)
    requires |values| == |CategoryNames|
    ensures SumValues(CategoryDict(values)) == values[0] + values[1] + values[2] + values[3] + values[4] + values[5]
  {
    var d := CategoryDict(values);
    SumOverSix(d.keys, d.vals);
  }

  /** `max(0, min(100, x))`. */
  function Clamp(x: real): (r: real)
    ensures 0.0 <= r <= 100.0
    ensures 0.0 <= x <= 100.0 ==> r == x
    ensures x < 0.0 ==> r == 0.0
    ensures x > 100.0 ==> r == 100.0
  {
    if 100.0 < x then 100.0 else if x < 0.0 then 0.0 else x
  }

  lemma ClampMonotone(x: real, y: real)
    requires x <= y
    ensures Clamp(x) <= Clamp(y)
  {
  }

  /** `min(1.0, age / 60.0)`: grows with age and stops growing at 60. */
  function AgeFactor(age: int): (f: real)
    ensures f <= 1.0
    ensures age >= 60 ==> f == 1.0
    ensures age < 60 ==> f * 60.0 == age as real
  {
    var a := age as real / 60.0;
    if a < 1.0 then a else 1.0
  }

  /** The age used: the given one, or 30. */
  function AgeOf(demographics: Demographics): (age: int)
    ensures demographics.age == None ==> age == DefaultAge
    ensures demographics.age.Some? ==> age == demographics.age.value
  {
    demographics.age.GetOr(DefaultAge)
  }

  /** The six formulas, unclamped, in category order. */
  function RawCategoryScores(s: SentimentRatios, e: Dict, ageFactor: real): (values: seq<real>)
    ensures |values| == |CategoryNames|
  {
    var joy := Get(e, "joy", 0.0);
    var sadness := Get(e, "sadness", 0.0);
    var anger := Get(e, "anger", 0.0);
    var fear := Get(e, "fear", 0.0);
    var disgust := Get(e, "disgust", 0.0);
    var love := Get(e, "love", 0.0);
    [ 50.0 + 50.0 * (joy + love - sadness - anger),
      50.0 + 50.0 * (s.positive - s.negative - fear * 0.5) + ageFactor * 5.0,
      50.0 + 50.0 * (s.positive - anger - disgust),
      50.0 + 50.0 * (s.neutral + love - disgust),
      50.0 + 50.0 * (love + sadness * 0.7 - disgust),
      50.0 + 50.0 * (s.positive - fear - anger) + ageFactor * 3.0 ]
  }

  /** With every ratio zero and no age bonus, each formula gives its base score of 50. */
  lemma RawScoresBaseline(e: Dict)
    requires forall k | k in e.vals :: e.vals[k] == 0.0
    ensures forall i | 0 <= i < |CategoryNames| :: RawCategoryScores(SentimentRatios(0.0, 0.0, 0.0), e, 0.0)[i] == 50.0
  {
  }

  /**
   * Only resilience and stress management depend on the age factor, by 5
   * and 3 times it; the other four formulas do not read it.
   */
  lemma RawScoresAgeBonus(s: SentimentRatios, e: Dict, f: real, f': real)
    ensures var v, v' := RawCategoryScores(s, e, f), RawCategoryScores(s, e, f');
      && v'[1] - v[1] == (f' - f) * 5.0
      && v'[5] - v[5] == (f' - f) * 3.0
      && v'[0] == v[0] && v'[2] == v[2] && v'[3] == v[3] && v'[4] == v[4]
  {
  }

  /**
   * The clamped category scores from the sentiment ratios, the emotion
   * ratios (a missing emotion reading 0.0) and the age factor, which adds
   * 5 times itself to resilience and 3 times itself to stress management
   * before the clamp. Cultural awareness reads the sentiment neutral ratio;
   * the surprise and neutral-emotion ratios enter no formula.
   */
  function CategoryScores(s: SentimentRatios, e: Dict, ageFactor: real): (d: Dict)
    ensures d.keys == CategoryNames
    ensures forall k | k in d.vals :: 0.0 <= d.vals[k] <= 100.0
  {
    var values := RawCategoryScores(s, e, ageFactor);
    var clamped := [Clamp(values[0]), Clamp(values[1]), Clamp(values[2]), Clamp(values[3]), Clamp(values[4]), Clamp(values[5])];
    CategoryDictBounds(clamped);
    CategoryDict(clamped)
  }

  /** The category scores `calculate_eq_scores` returns for these analyses and demographics. */
  function CategoryScoresOf(analyses: seq<Analysis>, demographics: Demographics): (d: Dict)
    ensures d.keys == CategoryNames
    ensures forall k | k in d.vals :: 0.0 <= d.vals[k] <= 100.0
  {
    CategoryScores(SentimentRatiosOf(analyses), EmotionRatiosOf(EmotionTotalsOf(analyses)), AgeFactor(AgeOf(demographics)))
  }

  /** `np.mean(list(d.values()))`. */
  function Mean(d: Dict): real
    requires d.keys != []
  {
    SumValues(d) / |d.keys| as real
  }

  /** The mean of scores that each lie in [0, 100] lies in [0, 100] too. */
  lemma MeanOfPercentages(d: Dict)
    requires d.keys != []
    requires forall k | k in d.vals :: 0.0 <= d.vals[k] <= 100.0
    ensures 0.0 <= Mean(d) <= 100.0
  {
    SumOverPercentages(d.keys, d.vals);
  }

  /** The overall score is the mean of the six category scores, and lies in [0, 100]. */
  function OverallOf(categoryScores: Dict): (overall: real)
    requires categoryScores.keys == CategoryNames
    requires forall k | k in categoryScores.vals :: 0.0 <= categoryScores.vals[k] <= 100.0
    ensures 0.0 <= overall <= 100.0
    ensures overall * 6.0 == SumValues(categoryScores)
  {
    MeanOfPercentages(categoryScores);
    Mean(categoryScores)
  }

  /** An older respondent never scores lower on resilience or stress management, and the other four are unchanged. */
  lemma AgeNeverLowers(s: SentimentRatios, e: Dict, age: int, age': int)
    requires age <= age'
    ensures var d, d' := CategoryScores(s, e, AgeFactor(age)), CategoryScores(s, e, AgeFactor(age'));
      && d.vals[EmotionalResilience] <= d'.vals[EmotionalResilience]
      && d.vals[StressManagement] <= d'.vals[StressManagement]
      && d.vals[SelfAwareness] == d'.vals[SelfAwareness]
      && d.vals[ConflictResolution] == d'.vals[ConflictResolution]
      && d.vals[CulturalAwareness] == d'.vals[CulturalAwareness]
      && d.vals[Empathy] == d'.vals[Empathy]
  {
    var f, f' := AgeFactor(age), AgeFactor(age');
    assert f <= f';
    var v, v' := RawCategoryScores(s, e, f), RawCategoryScores(s, e, f');
    ClampMonotone(v[1], v'[1]);
    ClampMonotone(v[5], v'[5]);
    assert CategoryNames[1] == EmotionalResilience && CategoryNames[5] == StressManagement;
    assert CategoryNames[0] == SelfAwareness && CategoryNames[2] == ConflictResolution;
    assert CategoryNames[3] == CulturalAwareness && CategoryNames[4] == Empathy;
  }

  /** Ages of 60 and over score alike: the age factor is capped. */
  lemma AgeCapped(s: SentimentRatios, e: Dict, age: int)
    requires age >= 60
    ensures CategoryScores(s, e, AgeFactor(age)) == CategoryScores(s, e, AgeFactor(60))
  {
  }

  /**
   * The age adjustment is applied before the clamp: a resilience already
   * at the top of the scale stays at 100 whatever the age.
   */
  lemma AdjustmentClamped(s: SentimentRatios, e: Dict, age: int)
    requires 0 <= age && s.positive - s.negative - Get(e, "fear", 0.0) * 0.5 >= 1.0
    ensures CategoryScores(s, e, AgeFactor(age)).vals[EmotionalResilience] == 100.0
  {
    var f := AgeFactor(age);
    assert 0.0 <= f;
    var v := RawCategoryScores(s, e, f);
    assert v[1] >= 100.0;
    assert CategoryNames[1] == EmotionalResilience;
  }

  /** `calculate_eq_scores(analyses, demographics)`: the category scores and their mean. */
  method CalculateEqScores(analyses: seq<Analysis>, demographics: Demographics) returns (categoryScores: Dict, overall: real)
    ensures categoryScores == CategoryScoresOf(analyses, demographics)
    ensures categoryScores.keys == CategoryNames
    ensures 0.0 <= overall <= 100.0 && overall == OverallOf(categoryScores)
  {
    var positive, negative, neutral := 0.0, 0.0, 0.0;
    var count := 0;
    var totals := Empty;
    var i := 0;
    while i < |analyses|
      invariant 0 <= i <= |analyses| && count == i
      invariant positive == LabelSum(analyses[..i], "POSITIVE")
      invariant negative == LabelSum(analyses[..i], "NEGATIVE")
      invariant neutral == OtherSum(analyses[..i])
      invariant totals == EmotionTotalsOf(analyses[..i])
    {
      var analysis := analyses[i];
      if analysis.sentimentLabel == "POSITIVE" {
        positive := positive + analysis.sentimentScore;
      } else if analysis.sentimentLabel == "NEGATIVE" {
        negative := negative + analysis.sentimentScore;
      } else {
        neutral := neutral + analysis.sentimentScore;
      }
      count := count + 1;
      totals := AddScores(totals, analysis.emotionScores);
      assert analyses[..i + 1][..i] == analyses[..i];
      i := i + 1;
    }
    assert analyses[..i] == analyses;
    var ratios: SentimentRatios;
    if count > 0 {
      ratios := SentimentRatios(positive / count as real, negative / count as real, neutral / count as real);
    } else {
      ratios := SentimentRatios(FallbackRatio, FallbackRatio, FallbackRatio);
    }
    var emotionRatios := NormaliseEmotions(totals);
    categoryScores := CategoryScores(ratios, emotionRatios, AgeFactor(AgeOf(demographics)));
    overall := SumValues(categoryScores) / |categoryScores.keys| as real;
    MeanOfPercentages(categoryScores);
  }

  // ----- Interpretation -----

  const LowEq: string := "Low EQ"
  const AverageEq: string := "Average EQ"
  const HighEq: string := "High EQ"

  /** `interpret_overall_eq`: below 40 is low, 40 to 70 inclusive is average, above 70 is high. */
  function InterpretOverallEq(score: real): (level: string)
    ensures level == LowEq <==> score < 40.0
    ensures level == AverageEq <==> 40.0 <= score <= 70.0
    ensures level == HighEq <==> 70.0 < score
  {
    if score < 40.0 then LowEq else if score <= 70.0 then AverageEq else HighEq
  }

  /** The position of a level on the scale. */
  function LevelRank(level: string): nat {
    if level == LowEq then 0 else if level == AverageEq then 1 else 2
  }

  /** A higher score never gives a lower level. */
  lemma InterpretMonotone(score: real, score': real)
    requires score <= score'
    ensures LevelRank(InterpretOverallEq(score)) <= LevelRank(InterpretOverallEq(score'))
  {
  }

  /** Both boundaries belong to the average band. */
  lemma InterpretBoundaries()
    ensures InterpretOverallEq(40.0) == AverageEq && InterpretOverallEq(70.0) == AverageEq
    ensures InterpretOverallEq(39.99) == LowEq && InterpretOverallEq(70.01) == HighEq
  {
  }

  /**
   * With no analyses and no age: all sentiment ratios 0.33, no emotions, an
   * age factor of 0.5, and so an overall score of 353.5 / 6 (about 58.9),
   * an average EQ.
   */
  lemma EmptyAssessment(gender: string, profession: string)
    ensures var d := CategoryScoresOf([], Demographics(None, gender, profession));
      && d.vals[SelfAwareness] == 50.0 && d.vals[EmotionalResilience] == 52.5
      && d.vals[ConflictResolution] == 66.5 && d.vals[CulturalAwareness] == 66.5
      && d.vals[Empathy] == 50.0 && d.vals[StressManagement] == 68.0
      && OverallOf(d) * 6.0 == 353.5
      && InterpretOverallEq(OverallOf(d)) == AverageEq
  {
    var ratios := SentimentRatiosOf([]);
    assert ratios == SentimentRatios(0.33, 0.33, 0.33);
    assert EmotionTotalsOf([]) == Empty;
    NoTotalsNoRatios();
    assert AgeFactor(AgeOf(Demographics(None, gender, profession))) == 0.5;
    var values := RawCategoryScores(ratios, Empty, 0.5);
    assert values == [50.0, 52.5, 66.5, 66.5, 50.0, 68.0];
    var clamped := [Clamp(values[0]), Clamp(values[1]), Clamp(values[2]), Clamp(values[3]), Clamp(values[4]), Clamp(values[5])];
    assert clamped == values;
    var d := CategoryDict(values);
    assert CategoryScoresOf([], Demographics(None, gender, profession)) == d;
    CategoryDictSum(values);
    assert CategoryNames[0] == SelfAwareness && CategoryNames[1] == EmotionalResilience;
    assert CategoryNames[2] == ConflictResolution && CategoryNames[3] == CulturalAwareness;
    assert CategoryNames[4] == Empathy && CategoryNames[5] == StressManagement;
  }
}
