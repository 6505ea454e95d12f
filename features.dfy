/**
 * Analysis of one response (`analyze_single_response`, `analyze_responses`).
 * The two classifiers are inputs: each maps a text to one of the result
 * shapes the code accepts, and the analysis turns whatever shape came back
 * into one record holding a standard sentiment label and score, a
 * lower-cased emotion-to-score dict, and the primary emotion.
 */
module Features {
  import opened Optional
  import opened Text
  import opened OrderedDict

  /** A sentiment result dict; either key may be missing. */
  datatype SentimentRecord = SentimentRecord(labelText: Option<string>, score: Option<real>)

  /** What the sentiment classifier returned: a list of result dicts, one dict, or something else. */
  datatype SentimentRaw =
    | SentimentList(records: seq<SentimentRecord>)
    | SentimentDict(record: SentimentRecord)
    | SentimentOther

  /** The value a pair's second element holds: a dict with a `score`, a number, or anything else `float()` may or may not convert. */
  datatype ScoreValue =
    | ScoreRecord(score: Option<real>)
    | ScoreNumber(number: real)
    | ScoreOther(conversion: Option<real>)

  /** One element of a list of emotion results: a dict, a pair of at least two elements, or anything else. */
  datatype EmotionItem =
    | ItemRecord(labelText: Option<string>, score: Option<real>)
    | ItemPair(name: string, value: ScoreValue)
    | ItemOther

  /** The value under one key of a label-keyed emotion dict. */
  datatype KeyedValue = KeyedNumber(number: real) | KeyedRecord(score: Option<real>) | KeyedOther

  /**
   * What the emotion classifier produced: a list of items, a single result
   * dict (one that has a `label` key), a dict keyed by label, any other
   * value, or an exception. A dict that has a `label` key is always an
   * `EmotionLabelled`, so the entries of an `EmotionKeyed` are meant to
   * hold no key `label`; the datatype does not enforce this.
   */
  datatype EmotionRaw =
    | EmotionList(items: seq<EmotionItem>)
    | EmotionLabelled(labelText: string, score: Option<real>)
    | EmotionKeyed(entries: seq<(string, KeyedValue)>)
    | EmotionOther
    | EmotionFault

  /** The two classifier pipelines, as functions from a text to their raw output. */
  datatype Classifiers = Classifiers(sentiment: string -> SentimentRaw, emotion: string -> EmotionRaw)

  /** The analysis record of one response. */
  datatype Analysis = Analysis(
    sentimentLabel: string,
    sentimentScore: real,
    emotionScores: Dict,
    primaryEmotion: Option<string>,
    primaryEmotionScore: real)

  /** The three standard sentiment labels. */
  predicate StandardSentiment(text: string) {
    text == "POSITIVE" || text == "NEGATIVE" || text == "NEUTRAL"
  }

  // ----- Sentiment -----

  const DefaultSentiment: SentimentRecord := SentimentRecord(Some("NEUTRAL"), Some(0.5))

  /** The result dict the label and score are read from: the first of a non-empty list, the dict itself, or the default. */
  function SentimentRecordOf(raw: SentimentRaw): SentimentRecord {
    if raw.SentimentList? && |raw.records| > 0 then raw.records[0]
    else if raw.SentimentDict? then raw.record
    else DefaultSentiment
  }

  /** The mapping of an upper-cased label onto the three standard labels. */
  function StandardLabel(text: string): (r: string)
    ensures StandardSentiment(r)
    ensures r == "POSITIVE" <==> text == "POSITIVE" || text == "POS"
    ensures r == "NEGATIVE" <==> text == "NEGATIVE" || text == "NEG"
    ensures r == "NEUTRAL" <==> !(text == "POSITIVE" || text == "POS" || text == "NEGATIVE" || text == "NEG")
  {
    if text == "POSITIVE" || text == "POS" then "POSITIVE"
    else if text == "NEGATIVE" || text == "NEG" then "NEGATIVE"
    else "NEUTRAL"
  }

  /** The standard label and the score of a sentiment result, with `NEUTRAL` and 0.5 for missing keys. */
  function NormaliseSentiment(raw: SentimentRaw): (r: (string, real))
    ensures StandardSentiment(r.0)
    ensures SentimentRecordOf(raw).labelText == None ==> r.0 == "NEUTRAL"
    ensures SentimentRecordOf(raw).score == None ==> r.1 == 0.5
    ensures SentimentRecordOf(raw).score.Some? ==> r.1 == SentimentRecordOf(raw).score.value
  {
    assert ToUpper("NEUTRAL") == "NEUTRAL";
    var record := SentimentRecordOf(raw);
    (StandardLabel(ToUpper(record.labelText.GetOr("NEUTRAL"))), record.score.GetOr(0.5))
  }

  /**
   * The label is always standard, and a present label is matched after
   * upper-casing, so the short forms are recognised in any case.
   */
  lemma SentimentLabels(raw: SentimentRaw, l: string)
    requires SentimentRecordOf(raw).labelText == Some(l)
    ensures StandardSentiment(NormaliseSentiment(raw).0)
    ensures NormaliseSentiment(raw).0 == "POSITIVE" <==> ToUpper(l) == "POSITIVE" || ToUpper(l) == "POS"
    ensures NormaliseSentiment(raw).0 == "NEGATIVE" <==> ToUpper(l) == "NEGATIVE" || ToUpper(l) == "NEG"
  {
  }

  /** For instance "pos" and "Neg" are read as POSITIVE and NEGATIVE. */
  lemma ShortFormsAnyCase(raw: SentimentRaw)
    ensures SentimentRecordOf(raw).labelText == Some("pos") ==> NormaliseSentiment(raw).0 == "POSITIVE"
    ensures SentimentRecordOf(raw).labelText == Some("Neg") ==> NormaliseSentiment(raw).0 == "NEGATIVE"
  {
    assert ToUpper("pos") == "POS";
    assert ToUpper("Neg") == "NEG";
  }

  /** An unrecognised shape, an empty list, or a result with neither key gives `NEUTRAL` and 0.5. */
  lemma SentimentDefaults(raw: SentimentRaw)
    requires raw.SentimentOther? || raw == SentimentList([])
      || SentimentRecordOf(raw) == SentimentRecord(None, None)
    ensures NormaliseSentiment(raw) == ("NEUTRAL", 0.5)
  {
    assert ToUpper("NEUTRAL") == "NEUTRAL";
  }

  // ----- Emotions -----

  /** `float(score_value)` for the second element of a pair, 0.0 where that cannot be done. */
  function ScoreOf(v: ScoreValue): real {
    match v
    case ScoreRecord(s) => s.GetOr(0.0)
    case ScoreNumber(x) => x
    case ScoreOther(c) => c.GetOr(0.0)
  }

  /** A label and score to store, or nothing when the lower-cased label is empty. */
  function NonEmptyEntry(key: string, score: real): seq<(string, real)> {
    if key != [] then [(key, score)] else []
  }

  /** The dict write one item of a list of results makes, if any. */
  function ItemEntry(item: EmotionItem): (w: seq<(string, real)>)
    ensures |w| <= 1
  {
    match item
    case ItemRecord(l, s) => NonEmptyEntry(ToLower(l.GetOr("")), s.GetOr(0.0))
    case ItemPair(n, v) => NonEmptyEntry(ToLower(n), ScoreOf(v))
    case ItemOther => []
  }

  /** The dict write one key of a label-keyed dict makes, if any; an empty key is not skipped. */
  function KeyedEntry(e: (string, KeyedValue)): (w: seq<(string, real)>)
    ensures |w| <= 1
  {
    match e.1
    case KeyedNumber(x) => [(ToLower(e.0), x)]
    case KeyedRecord(s) => if s.Some? then [(ToLower(e.0), s.value)] else []
    case KeyedOther => []
  }

  /** The writes a list of results makes, in order. */
  function ItemWrites(items: seq<EmotionItem>): seq<(string, real)> {
    if items == [] then [] else ItemWrites(items[..|items| - 1]) + ItemEntry(items[|items| - 1])
  }

  /** The writes a label-keyed dict makes, in order. */
  function KeyedWrites(entries: seq<(string, KeyedValue)>): seq<(string, real)> {
    if entries == [] then [] else KeyedWrites(entries[..|entries| - 1]) + KeyedEntry(entries[|entries| - 1])
  }

  /** The writes into `emotion_scores`, in the order the code makes them. */
  function EmotionWrites(raw: EmotionRaw): seq<(string, real)> {
    match raw
    case EmotionList(items) => ItemWrites(items)
    case EmotionLabelled(l, s) => NonEmptyEntry(ToLower(l), s.GetOr(0.0))
    case EmotionKeyed(entries) => KeyedWrites(entries)
    case EmotionOther => []
    case EmotionFault => []
  }

  /** `emotion_scores`: the dict the writes build, a later write to a label replacing an earlier one. */
  function EmotionScoresOf(raw: EmotionRaw): (d: Dict)
    ensures d.vals.Keys == KeySet(EmotionWrites(raw))
    ensures forall i | 0 <= i < |EmotionWrites(raw)| :: EmotionWrites(raw)[i].0 in d.vals
  {
    FromPairsKeys(EmotionWrites(raw));
    FromPairs(EmotionWrites(raw))
  }

  /** Every write of a list of results uses a non-empty, lower-cased label. */
  lemma {:induction false} ItemWritesLabels(items: seq<EmotionItem>)
    ensures forall p | p in ItemWrites(items) :: p.0 != [] && ToLower(p.0) == p.0
  {
    if items != [] {
      var item := items[|items| - 1];
      ItemWritesLabels(items[..|items| - 1]);
      match item {
        case ItemRecord(l, s) => ToLowerIdempotent(l.GetOr(""));
        case ItemPair(n, v) => ToLowerIdempotent(n);
        case ItemOther =>
      }
    }
  }

  /** Every write of a label-keyed dict uses a lower-cased label. */
  lemma {:induction false} KeyedWritesLabels(entries: seq<(string, KeyedValue)>)
    ensures forall p | p in KeyedWrites(entries) :: ToLower(p.0) == p.0
  {
    if entries != [] {
      KeyedWritesLabels(entries[..|entries| - 1]);
      ToLowerIdempotent(entries[|entries| - 1].0);
    }
  }

  /**
   * Every key of the emotion dict is lower-cased; it is non-empty unless
   * the classifier returned a label-keyed dict, whose branch has no
   * emptiness test.
   */
  lemma EmotionKeys(raw: EmotionRaw)
    ensures forall k | k in EmotionScoresOf(raw).vals :: ToLower(k) == k
    ensures !raw.EmotionKeyed? ==> forall k | k in EmotionScoresOf(raw).vals :: k != []
  {
    var ps := EmotionWrites(raw);
    FromPairsKeys(ps);
    match raw {
      case EmotionList(items) => ItemWritesLabels(items);
      case EmotionLabelled(l, s) => ToLowerIdempotent(l);
      case EmotionKeyed(entries) => KeyedWritesLabels(entries);
      case EmotionOther =>
      case EmotionFault =>
    }
    forall k | k in EmotionScoresOf(raw).vals ensures ToLower(k) == k && (!raw.EmotionKeyed? ==> k != []) {
      var i :| 0 <= i < |ps| && ps[i].0 == k;
      assert ps[i] in ps;
    }
  }

  /** A classifier exception, or a result of an unrecognised shape, leaves the emotion dict empty. */
  lemma NoEmotionsWithoutResults(raw: EmotionRaw)
    requires raw.EmotionFault? || raw.EmotionOther? || raw == EmotionList([]) || raw == EmotionKeyed([])
    ensures EmotionScoresOf(raw) == Empty
  {
  }

  /** An empty key of a label-keyed dict is stored, unlike an empty label elsewhere. */
  lemma KeyedKeepsEmptyKey(x: real)
    ensures "" in EmotionScoresOf(EmotionKeyed([("", KeyedNumber(x))])).vals
    ensures EmotionScoresOf(EmotionList([ItemPair("", ScoreNumber(x))])) == Empty
  {
    var ks := [("", KeyedNumber(x))];
    assert ks[..0] == [];
    assert ToLower("") == "";
    assert KeyedWrites(ks) == [("", x)];
    var single := [ItemPair("", ScoreNumber(x))];
    assert single[..0] == [];
    assert ItemWrites(single) == [];
  }

  /** The score kept for a label is the one written last for it. */
  lemma LastWriteWins(raw: EmotionRaw, i: nat)
    requires i < |EmotionWrites(raw)|
    requires forall j | i < j < |EmotionWrites(raw)| :: EmotionWrites(raw)[j].0 != EmotionWrites(raw)[i].0
    ensures EmotionWrites(raw)[i].0 in EmotionScoresOf(raw).vals
    ensures EmotionScoresOf(raw).vals[EmotionWrites(raw)[i].0] == EmotionWrites(raw)[i].1
  {
    FromPairsLastWins(EmotionWrites(raw), i);
  }

  /**
   * The body of the loop over a list of results: the dict after one more
   * item. A dict item is read with `get('label', '')` and `get('score', 0.0)`;
   * a pair's score comes from its second element.
   */
  method AddEmotionItem(scores: Dict, item: EmotionItem) returns (r: Dict)
    ensures ItemEntry(item) == [] ==> r == scores
    ensures ItemEntry(item) != [] ==> r == Put(scores, ItemEntry(item)[0].0, ItemEntry(item)[0].1)
  {
    r := scores;
    match item {
      case ItemRecord(l, s) =>
        var key := ToLower(l.GetOr(""));
        var score := s.GetOr(0.0);
        if key != [] {
          r := Put(scores, key, score);
        }
      case ItemPair(n, v) =>
        var key := ToLower(n);
        var score: real;
        match v {
          case ScoreRecord(s) => score := s.GetOr(0.0);
          case ScoreNumber(x) => score := x;
          case ScoreOther(c) => score := if c.Some? then c.value else 0.0;
        }
        if key != [] {
          r := Put(scores, key, score);
        }
      case ItemOther =>
    }
  }

  /** The body of the loop over a label-keyed dict: the dict after one more key. */
  method AddKeyedEntry(scores: Dict, e: (string, KeyedValue)) returns (r: Dict)
    ensures KeyedEntry(e) == [] ==> r == scores
    ensures KeyedEntry(e) != [] ==> r == Put(scores, KeyedEntry(e)[0].0, KeyedEntry(e)[0].1)
  {
    r := scores;
    var (key, value) := e;
    match value {
      case KeyedNumber(x) => r := Put(scores, ToLower(key), x);
      case KeyedRecord(s) =>
        if s.Some? {
          r := Put(scores, ToLower(key), s.value);
        }
      case KeyedOther =>
    }
  }

  /** The loop over a list of emotion results. */
  method ExtractItemScores(items: seq<EmotionItem>) returns (scores: Dict)
    ensures scores == FromPairs(ItemWrites(items))
  {
    scores := Empty;
    var i := 0;
    while i < |items|
      invariant 0 <= i <= |items|
      invariant scores == FromPairs(ItemWrites(items[..i]))
    {
      ghost var before := ItemWrites(items[..i]);
      ghost var entry := ItemEntry(items[i]);
      assert items[..i + 1][..i] == items[..i];
      assert ItemWrites(items[..i + 1]) == before + entry;
      FromPairsAppend(before, entry);
      scores := AddEmotionItem(scores, items[i]);
      i := i + 1;
    }
    assert items[..i] == items;
  }

  /** The loop over the keys of a label-keyed emotion dict. */
  method ExtractKeyedScores(entries: seq<(string, KeyedValue)>) returns (scores: Dict)
    ensures scores == FromPairs(KeyedWrites(entries))
  {
    scores := Empty;
    var i := 0;
    while i < |entries|
      invariant 0 <= i <= |entries|
      invariant scores == FromPairs(KeyedWrites(entries[..i]))
    {
      ghost var before := KeyedWrites(entries[..i]);
      ghost var entry := KeyedEntry(entries[i]);
      assert entries[..i + 1][..i] == entries[..i];
      assert KeyedWrites(entries[..i + 1]) == before + entry;
      FromPairsAppend(before, entry);
      scores := AddKeyedEntry(scores, entries[i]);
      i := i + 1;
    }
    assert entries[..i] == entries;
  }

  /**
   * The emotion part of `analyze_single_response`: the dict built from the
   * classifier's output, whatever its shape.
   */
  method ExtractEmotionScores(raw: EmotionRaw) returns (scores: Dict)
    ensures scores == EmotionScoresOf(raw)
  {
    match raw {
      case EmotionList(items) =>
        scores := ExtractItemScores(items);
      case EmotionLabelled(l, s) =>
        var key := ToLower(l);
        var score := s.GetOr(0.0);
        scores := Empty;
        if key != [] {
          scores := Put(scores, key, score);
        }
        assert [] + NonEmptyEntry(key, score) == NonEmptyEntry(key, score);
        FromPairsAppend([], NonEmptyEntry(key, score));
      case EmotionKeyed(entries) =>
        scores := ExtractKeyedScores(entries);
      case EmotionOther =>
        scores := Empty;
      case EmotionFault =>
        scores := Empty;
    }
  }

  // ----- Primary emotion -----

  /**
   * The position `max(d, key=d.get)` picks among `keys`: the first one whose
   * value is at least every other value.
   */
  function FirstMaxIndex(keys: seq<string>, vals: map<string, real>): (j: nat)
    requires |keys| > 0 && forall k | k in keys :: k in vals
    ensures j < |keys|
    ensures forall i | 0 <= i < |keys| :: vals[keys[i]] <= vals[keys[j]]
    ensures forall i | 0 <= i < j :: vals[keys[i]] < vals[keys[j]]
  {
    if |keys| == 1 then 0
    else
      var init := keys[..|keys| - 1];
      assert forall k | k in init :: k in keys;
      var j := FirstMaxIndex(init, vals);
      assert init[j] == keys[j];
      if vals[keys[|keys| - 1]] > vals[keys[j]] then |keys| - 1 else j
  }

  /**
   * The primary emotion and its score: the first key with the largest
   * score, or `None` and 0.0 when there are no emotions.
   */
  function PrimaryEmotion(scores: Dict): (r: (Option<string>, real))
    ensures scores.keys == [] <==> r == (None, 0.0) && scores.vals == map[]
    ensures r.0.Some? ==> r.0.value in scores.vals && r.1 == scores.vals[r.0.value]
    ensures r.0.Some? ==> forall k | k in scores.vals :: scores.vals[k] <= r.1
    ensures r.0.Some? ==> forall i, j | 0 <= i < j < |scores.keys| && scores.keys[j] == r.0.value ::
      scores.vals[scores.keys[i]] < r.1
    ensures scores.keys != [] ==> r.0.Some?
  {
    if scores.keys == [] then
      (None, 0.0)
    else
      var j := FirstMaxIndex(scores.keys, scores.vals);
      assert forall k | k in scores.vals :: exists i | 0 <= i < |scores.keys| :: scores.keys[i] == k;
      (Some(scores.keys[j]), scores.vals[scores.keys[j]])
  }

  // ----- Whole analysis -----

  /** The analysis record `analyze_single_response(text)` returns. */
  function AnalysisOf(text: string, classifiers: Classifiers): (a: Analysis)
    ensures StandardSentiment(a.sentimentLabel)
    ensures a.emotionScores == EmotionScoresOf(classifiers.emotion(text))
    ensures a.primaryEmotion == None <==> a.emotionScores.vals == map[]
    ensures a.primaryEmotion.Some? ==> a.primaryEmotion.value in a.emotionScores.vals
  {
    var (sentiment, score) := NormaliseSentiment(classifiers.sentiment(text));
    var scores := EmotionScoresOf(classifiers.emotion(text));
    var (primary, primaryScore) := PrimaryEmotion(scores);
    Analysis(sentiment, score, scores, primary, primaryScore)
  }

  /**
   * What every analysis record satisfies: a standard sentiment label,
   * lower-cased emotion keys, and a primary emotion that is a key of
   * largest score (or none, with 0.0, when there are no emotions).
   */
  lemma AnalysisShape(text: string, classifiers: Classifiers)
    ensures StandardSentiment(AnalysisOf(text, classifiers).sentimentLabel)
    ensures forall k | k in AnalysisOf(text, classifiers).emotionScores.vals :: ToLower(k) == k
    ensures var a := AnalysisOf(text, classifiers);
      match a.primaryEmotion
      case None => a.emotionScores.vals == map[] && a.primaryEmotionScore == 0.0
      case Some(e) =>
        && e in a.emotionScores.vals && a.primaryEmotionScore == a.emotionScores.vals[e]
        && forall k | k in a.emotionScores.vals :: a.emotionScores.vals[k] <= a.primaryEmotionScore
  {
    EmotionKeys(classifiers.emotion(text));
  }

  /** `analyze_single_response(text)`. */
  method AnalyzeSingleResponse(text: string, classifiers: Classifiers) returns (a: Analysis)
    ensures a == AnalysisOf(text, classifiers)
  {
    var sentimentRaw := classifiers.sentiment(text);
    var record := SentimentRecordOf(sentimentRaw);
    var sentiment := StandardLabel(ToUpper(record.labelText.GetOr("NEUTRAL")));
    var score := record.score.GetOr(0.5);
    var scores := ExtractEmotionScores(classifiers.emotion(text));
    var primary, primaryScore := None, 0.0;
    if scores.keys != [] {
      var j := FirstMaxIndex(scores.keys, scores.vals);
      primary, primaryScore := Some(scores.keys[j]), scores.vals[scores.keys[j]];
    }
    a := Analysis(sentiment, score, scores, primary, primaryScore);
  }

  /** `analyze_responses(responses)`: one analysis per response, in order. */
  method AnalyzeResponses(responses: seq<string>, classifiers: Classifiers) returns (analyses: seq<Analysis>)
    ensures |analyses| == |responses|
    ensures forall i | 0 <= i < |responses| :: analyses[i] == AnalysisOf(responses[i], classifiers)
  {
    analyses := [];
    var i := 0;
    while i < |responses|
      invariant 0 <= i <= |responses|
      invariant |analyses| == i
      invariant forall j | 0 <= j < i :: analyses[j] == AnalysisOf(responses[j], classifiers)
    {
      var analysis := AnalyzeSingleResponse(responses[i], classifiers);
      ghost var before := analyses;
      analyses := analyses + [analysis];
      forall j | 0 <= j < i + 1 ensures analyses[j] == AnalysisOf(responses[j], classifiers) {
        if j < i {
          assert analyses[j] == before[j];
        } else {
          assert analyses[j] == analysis;
        }
      }
      i := i + 1;
    }
  }
}
