/**
 * The fail-fast response validator (`validate_responses`): the responses are
 * checked in order, and the first one that is blank, or that has fewer than
 * ten whitespace-separated words, is reported by its 1-based position.
 */
module Validation {
  import opened Optional
  import opened Text

  /** `min_words_per_response`. */
  const MinWordsPerResponse: nat := 10

  /** Why a response was refused; `answer` is its 1-based position. */
  datatype Failure = EmptyAnswer(answer: nat) | TooShort(answer: nat, words: nat)

  /**
   * The number of whitespace-separated words of a response. The source
   * counts `response.strip().split()`; stripping first changes nothing
   * (Text.StripKeepsWordCount).
   */
  function WordCount(response: string): nat {
    |Words(response)|
  }

  /** The response is neither blank nor shorter than the minimum word count. */
  predicate Acceptable(response: string) {
    !IsBlank(response) && WordCount(response) >= MinWordsPerResponse
  }

  /**
   * What is wrong with one response at 1-based position `answer`: the
   * emptiness test `not response or not response.strip()` first, and only
   * then the word count.
   */
  function CheckResponse(response: string, answer: nat): (f: Option<Failure>)
    ensures f == None <==> Acceptable(response)
    ensures f == Some(EmptyAnswer(answer)) <==> IsBlank(response)
    ensures f == Some(TooShort(answer, WordCount(response))) <==>
      !IsBlank(response) && WordCount(response) < MinWordsPerResponse
  {
    if IsBlank(response) then Some(EmptyAnswer(answer))
    else if WordCount(response) < MinWordsPerResponse then Some(TooShort(answer, WordCount(response)))
    else None
  }

  /** The check of every response, each with its 1-based position. */
  function Checks(responses: seq<string>): (checks: seq<Option<Failure>>)
    ensures |checks| == |responses|
    ensures forall i | 0 <= i < |responses| :: checks[i] == CheckResponse(responses[i], i + 1)
  {
    seq(|responses|, i requires 0 <= i < |responses| => CheckResponse(responses[i], i + 1))
  }

  /** The first failure among `checks[from..]`, if any. */
  function FirstFrom(checks: seq<Option<Failure>>, from: nat): Option<Failure>
    decreases |checks| - from
  {
    if from >= |checks| then None
    else if checks[from].Some? then checks[from]
    else FirstFrom(checks, from + 1)
  }

  /** The failure `validate_responses` reports, if any: the first response, in order, that fails its check. */
  function FirstFailure(responses: seq<string>): Option<Failure> {
    FirstFrom(Checks(responses), 0)
  }

  /** What follows the answer number in the message for an empty answer. */
  const EmptyReason := " cannot be empty." + " Please provide a thoughtful response."

  /** What follows the word count in the message for a short answer. */
  const ShortTail := " words)." + " Your response should be detailed and reflective."

  /** What follows the answer number in the message for a short answer of `k` words. */
  function ShortReason(k: nat): string {
    ShortLead() + NatToString(k) + ShortTail
  }

  /** The text between the answer number and the word count, naming the required minimum. */
  function ShortLead(): string {
    " is too short." + " Please provide at least " + NatToString(MinWordsPerResponse) + " words (currently "
  }

  /** What follows the answer number in a failure's message. */
  function Reason(f: Failure): string {
    if f.EmptyAnswer? then EmptyReason else ShortReason(f.words)
  }

  /** The error text for a failure, with the numbers rendered in decimal. */
  function Message(f: Failure): string {
    "Answer " + NatToString(f.answer) + Reason(f)
  }

  /** A reason starts with a space, then 'c' for an empty answer and 'i' for a short one. */
  lemma ReasonStart(f: Failure)
    ensures |Reason(f)| > 1 && Reason(f)[0] == ' '
    ensures Reason(f)[1] == if f.EmptyAnswer? then 'c' else 'i'
  {
    if f.TooShort? {
      var lead := ShortLead();
      assert lead[0] == ' ' && lead[1] == 'i';
      assert Reason(f) == lead + (NatToString(f.words) + ShortTail);
    }
  }

  /** Equal messages name the same answer and give the same reason. */
  lemma MessageParts(f: Failure, g: Failure)
    requires Message(f) == Message(g)
    ensures f.answer == g.answer && Reason(f) == Reason(g)
  {
    ReasonStart(f);
    ReasonStart(g);
    PrefixDigitsThenOther("Answer ", NatToString(f.answer), Reason(f), NatToString(g.answer), Reason(g));
    NatToStringInjective(f.answer, g.answer);
  }

  /** Equal short-answer reasons give the same word count. */
  lemma ShortReasonInjective(k: nat, k': nat)
    requires ShortReason(k) == ShortReason(k')
    ensures k == k'
  {
    assert ShortTail[0] == ' ';
    PrefixDigitsThenOther(ShortLead(), NatToString(k), ShortTail, NatToString(k'), ShortTail);
    NatToStringInjective(k, k');
  }

  /**
   * Different failures give different messages: the text names the answer,
   * says whether it was empty or short, and, when short, its word count.
   */
  lemma MessageInjective(f: Failure, g: Failure)
    requires Message(f) == Message(g)
    ensures f == g
  {
    MessageParts(f, g);
    ReasonStart(f);
    ReasonStart(g);
    if f.TooShort? && g.TooShort? {
      ShortReasonInjective(f.words, g.words);
    }
  }

  /** The index of the first failed check at or after `from`, or `|checks|` when there is none. */
  function FirstFailedIndex(checks: seq<Option<Failure>>, from: nat): (k: nat)
    requires from <= |checks|
    ensures from <= k <= |checks|
    ensures forall j | from <= j < k :: checks[j] == None
    ensures k < |checks| ==> checks[k] != None
    decreases |checks| - from
  {
    if from == |checks| || checks[from].Some? then from else FirstFailedIndex(checks, from + 1)
  }

  /** Scanning from `from` yields the first failed check, or nothing when every check passed. */
  lemma {:induction false} FirstFromIsFirstFailed(checks: seq<Option<Failure>>, from: nat)
    requires from <= |checks|
    ensures FirstFrom(checks, from) ==
      if FirstFailedIndex(checks, from) == |checks| then None else checks[FirstFailedIndex(checks, from)]
    decreases |checks| - from
  {
    if from < |checks| && checks[from].None? {
      FirstFromIsFirstFailed(checks, from + 1);
    }
  }

  /**
   * `validate_responses` accepts exactly when every response is acceptable
   * (so the empty list is accepted); otherwise it names the first refused
   * response by its 1-based position, reporting it as empty when it is
   * blank and as too short, with its word count, when it is not.
   */
  lemma FirstFailureSpec(responses: seq<string>)
    ensures FirstFailure(responses) == None <==> forall i | 0 <= i < |responses| :: Acceptable(responses[i])
    ensures FirstFailure(responses) != None ==>
      var i := FirstFailedIndex(Checks(responses), 0);
      && i < |responses|
      && (forall j | 0 <= j < i :: Acceptable(responses[j]))
      && !Acceptable(responses[i])
      && FirstFailure(responses) ==
           if IsBlank(responses[i]) then Some(EmptyAnswer(i + 1))
           else Some(TooShort(i + 1, WordCount(responses[i])))
  {
    FirstFromIsFirstFailed(Checks(responses), 0);
    ChecksPass(responses);
  }

  /** A response passes its check exactly when it is acceptable. */
  lemma ChecksPass(responses: seq<string>)
    ensures forall j | 0 <= j < |responses| :: Checks(responses)[j] == None <==> Acceptable(responses[j])
  {
  }

  /** The body of the validation loop: the emptiness test, then the word count, for one response. */
  method CheckAnswer(response: string, answer: nat) returns (f: Option<Failure>)
    ensures f == CheckResponse(response, answer)
  {
    if response == [] || Strip(response) == [] {
      return Some(EmptyAnswer(answer));
    }
    var words := Words(Strip(response));
    StripKeepsWordCount(response);
    if |words| < MinWordsPerResponse {
      return Some(TooShort(answer, |words|));
    }
    return None;
  }

  /** The loop of `validate_responses`: the responses are checked in order until one fails. */
  method FindFailure(responses: seq<string>) returns (failure: Option<Failure>)
    ensures failure == FirstFailure(responses)
  {
    ghost var checks := Checks(responses);
    var i := 0;
    while i < |responses|
      invariant 0 <= i <= |responses|
      invariant FirstFrom(checks, i) == FirstFailure(responses)
    {
      var f := CheckAnswer(responses[i], i + 1);
      assert checks[i] == f;
      if f.Some? {
        return f;
      }
      i := i + 1;
    }
    return None;
  }

  /**
   * `validate_responses(responses)`: `(True, None)` when nothing is
   * refused, and otherwise `(False, message)` for the first refused response.
   */
  method ValidateResponses(responses: seq<string>) returns (isValid: bool, errorMessage: Option<string>)
    ensures isValid <==> forall i | 0 <= i < |responses| :: Acceptable(responses[i])
    ensures isValid <==> errorMessage == None
    ensures match FirstFailure(responses)
      case None => isValid
      case Some(f) => errorMessage == Some(Message(f))
  {
    var failure := FindFailure(responses);
    FirstFailureSpec(responses);
    if failure.Some? {
      return false, Some(Message(failure.value));
    }
    return true, None;
  }

  /** The empty list of responses is valid. */
  lemma NoResponsesAreValid()
    ensures FirstFailure([]) == None
  {
  }

  /** A blank first answer is reported as empty even when a later one is too short too. */
  lemma BlankReportedFirst(first: string, rest: seq<string>)
    requires IsBlank(first)
    ensures FirstFailure([first] + rest) == Some(EmptyAnswer(1))
  {
    var rs := [first] + rest;
    assert rs[0] == first;
    assert Checks(rs)[0] == CheckResponse(first, 1);
  }

  /** After an acceptable first answer, a short second one is reported with its position and count. */
  lemma ShortSecondAnswer(first: string, second: string, rest: seq<string>)
    requires Acceptable(first) && !IsBlank(second) && WordCount(second) < MinWordsPerResponse
    ensures FirstFailure([first, second] + rest) == Some(TooShort(2, WordCount(second)))
  {
    var rs := [first, second] + rest;
    assert rs[0] == first && rs[1] == second;
    var checks := Checks(rs);
    assert checks[0] == CheckResponse(first, 1);
    assert checks[1] == CheckResponse(second, 2);
    assert checks[0] == None;
    assert FirstFrom(checks, 1) == checks[1];
    assert FirstFrom(checks, 0) == FirstFrom(checks, 1);
  }
}
