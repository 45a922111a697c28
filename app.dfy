/**
 * `static/js/app.js`: the page controller's pure helpers (relative time, sentiment
 * label, capitalisation) and the state the `MoodMorphApp` object keeps: the text box,
 * the character counter and button rule, the analysing flag, the last result and the error
 * banner. The request is the `fetch` outcome, passed in as a parameter.
 */
module App {
  import opened Wrappers
  import opened Strings

  const MsPerMinute: int := 60000
  const MsPerHour: int := 3600000
  const MsPerDay: int := 86400000

  // ---------------------------------------------------------------------------
  // getTimeAgo
  // ---------------------------------------------------------------------------

  /** `` `${n} ${unit}${n > 1 ? 's' : ''} ago` ``. */
  function CountAgo(n: nat, unit: string): string {
    NatToString(n) + " " + unit + (if n > 1 then "s" else "") + " ago"
  }

  /** The phrase names the count, and the unit is plural exactly when the count exceeds one. */
  lemma CountAgoShape(n: nat, unit: string)
    requires unit != [] && unit[|unit| - 1] != 's'
    ensures var p := CountAgo(n, unit);
      && |p| >= 5
      && p[..|NatToString(n)|] == NatToString(n)
      && DigitsValue(p[..|NatToString(n)|]) == n
      && (p[|p| - 5..] == "s ago" <==> n > 1)
  {
    var p := CountAgo(n, unit);
    NatToStringRoundTrip(n);
    assert p[..|NatToString(n)|] == NatToString(n);
    if n <= 1 {
      assert p[|p| - 5] == unit[|unit| - 1];
    }
  }

  /**
   * `getTimeAgo` on `diff = now - date` in milliseconds. `Math.floor` of a division by a
   * positive constant is the floor division `/` of integers, negative `diff` included.
   */
  function GetTimeAgo(diff: int): (s: string)
    ensures diff < MsPerMinute ==> s == "Just now"
    ensures MsPerDay <= diff ==> s == CountAgo(diff / MsPerDay, "day")
    ensures MsPerHour <= diff < MsPerDay ==> s == CountAgo(diff / MsPerHour, "hour") && 1 <= diff / MsPerHour < 24
    ensures MsPerMinute <= diff < MsPerHour ==> s == CountAgo(diff / MsPerMinute, "minute") && 1 <= diff / MsPerMinute < 60
  {
    var minutes := diff / MsPerMinute;
    var hours := diff / MsPerHour;
    var days := diff / MsPerDay;
    if days > 0 then CountAgo(days, "day")
    else if hours > 0 then CountAgo(hours, "hour")
    else if minutes > 0 then CountAgo(minutes, "minute")
    else "Just now"
  }

  // ---------------------------------------------------------------------------
  // getSentimentLabel
  // ---------------------------------------------------------------------------

  /** The five labels, in order from most negative (0) to most positive (4). */
  const SentimentLabels: seq<string> := ["Very Negative", "Negative", "Neutral", "Positive", "Very Positive"]

  /** `getSentimentLabel`: half-open bands cut at -0.5, -0.1, 0.1 and 0.5. */
  function GetSentimentLabel(score: real): (name: string)
    ensures name == SentimentLabels[SentimentRank(score)]
    ensures name == "Very Negative" <==> score < -0.5
    ensures name == "Negative" <==> -0.5 <= score < -0.1
    ensures name == "Neutral" <==> -0.1 <= score < 0.1
    ensures name == "Positive" <==> 0.1 <= score < 0.5
    ensures name == "Very Positive" <==> 0.5 <= score
  {
    if score < -0.5 then "Very Negative"
    else if score < -0.1 then "Negative"
    else if score < 0.1 then "Neutral"
    else if score < 0.5 then "Positive"
    else "Very Positive"
  }

  /** The number of cut points at or below `score`: the label's position in `SentimentLabels`. */
  function SentimentRank(score: real): (k: nat)
    ensures k < |SentimentLabels|
  {
    (if score >= -0.5 then 1 else 0) + (if score >= -0.1 then 1 else 0)
    + (if score >= 0.1 then 1 else 0) + (if score >= 0.5 then 1 else 0)
  }

  /** A higher score never gets a more negative label. */
  lemma SentimentLabelMonotone(a: real, b: real)
    requires a <= b
    ensures SentimentRank(a) <= SentimentRank(b)
    ensures GetSentimentLabel(a) == SentimentLabels[SentimentRank(a)]
    ensures GetSentimentLabel(b) == SentimentLabels[SentimentRank(b)]
  {
  }

  // ---------------------------------------------------------------------------
  // updateSentimentBar
  // ---------------------------------------------------------------------------

  /** The Bootstrap colour class the sentiment bar gets. */
  datatype BarTone = BarDanger | BarWarning | BarSecondary | BarInfo | BarSuccess

  /** The bar's colour: five half-open bands cut at -0.3, -0.1, 0.1 and 0.3. */
  function BarToneFor(score: real): (t: BarTone)
    ensures t == BarDanger <==> score < -0.3
    ensures t == BarWarning <==> -0.3 <= score < -0.1
    ensures t == BarSecondary <==> -0.1 <= score < 0.1
    ensures t == BarInfo <==> 0.1 <= score < 0.3
    ensures t == BarSuccess <==> 0.3 <= score
  {
    if score < -0.3 then BarDanger
    else if score < -0.1 then BarWarning
    else if score < 0.1 then BarSecondary
    else if score < 0.3 then BarInfo
    else BarSuccess
  }

  /** The bar's width in percent: the polarity range [-1, 1] mapped linearly onto [0, 100]. */
  function BarWidth(score: real): (w: real)
    ensures -1.0 <= score <= 1.0 ==> 0.0 <= w <= 100.0
    ensures score == -1.0 ==> w == 0.0
    ensures score == 0.0 ==> w == 50.0
    ensures score == 1.0 ==> w == 100.0
  {
    ((score + 1.0) / 2.0) * 100.0
  }

  /** A higher score never gives a narrower bar. */
  lemma BarWidthMonotone(a: real, b: real)
    requires a <= b
    ensures BarWidth(a) <= BarWidth(b)
  {
  }

  // ---------------------------------------------------------------------------
  // capitalizeFirst
  // ---------------------------------------------------------------------------

  /** `str.charAt(0).toUpperCase() + str.slice(1)`; the empty string stays empty. */
  function CapitalizeFirst(s: string): (r: string)
    ensures |r| == |s|
    ensures |s| > 0 ==> r[0] == UpperChar(s[0]) && r[1..] == s[1..]
  {
    if s == [] then [] else [UpperChar(s[0])] + s[1..]
  }

  /** Capitalising twice is capitalising once. */
  lemma CapitalizeFirstIdempotent(s: string)
    ensures CapitalizeFirst(CapitalizeFirst(s)) == CapitalizeFirst(s)
  {
    if s != [] {
      var c := UpperChar(s[0]);
      assert !IsLower(c);
      assert UpperChar(c) == c;
    }
  }

  // ---------------------------------------------------------------------------
  // Character counter and analyse button
  // ---------------------------------------------------------------------------

  const MaxInputLength: nat := 500
  const WarningLength: nat := 400
  const DangerLength: nat := 450

  /** The counter's class: none, `char-count-warning` or `char-count-danger`. */
  datatype CountStyle = Plain | Warning | Danger

  /** The class `updateCharCount` gives the counter for a length. */
  function CountStyleFor(length: nat): (st: CountStyle)
    ensures st == Danger <==> length > DangerLength
    ensures st == Warning <==> WarningLength < length <= DangerLength
    ensures st == Plain <==> length <= WarningLength
  {
    if length > DangerLength then Danger else if length > WarningLength then Warning else Plain
  }

  /** The `disabled` state `updateCharCount` gives the analyse button. */
  function AnalyzeDisabled(length: nat, analyzing: bool): (disabled: bool)
    ensures !disabled <==> 1 <= length <= MaxInputLength && !analyzing
  {
    length == 0 || length > MaxInputLength || analyzing
  }

  // ---------------------------------------------------------------------------
  // analyzeEmotion
  // ---------------------------------------------------------------------------

  /**
   * What the request in `analyzeEmotion` comes to: a 2xx reply with the two labels, a
   * non-2xx reply whose JSON may carry an `error` text, or a rejected promise with its
   * message (network failure or a body that is not JSON).
   */
  datatype AnalysisOutcome =
    | Succeeded(detectedEmotion: string, oppositeEmotion: string, sentimentScore: real)
    | Refused(error: Option<string>)
    | Threw(message: string)

  const EmptyInputError := "Please enter some text describing how you feel."
  const LongInputError := "Please keep your input under 500 characters."
  const RefusedDefault := "Failed to analyze emotion"
  const ThrewDefault := "Something went wrong. Please try again."

  /**
   * The banner text for a failed request: the server's non-empty `error`, else the fixed
   * refusal text; for a thrown error its non-empty message, else the generic text.
   */
  function FailureMessage(outcome: AnalysisOutcome): (m: string)
    requires !outcome.Succeeded?
    ensures m != ""
    ensures outcome.Refused? && outcome.error.Some? && outcome.error.value != "" ==> m == outcome.error.value
    ensures outcome.Refused? && (outcome.error.None? || outcome.error.value == "") ==> m == RefusedDefault
    ensures outcome.Threw? ==> m == (if outcome.message != "" then outcome.message else ThrewDefault)
  {
    match outcome
    case Refused(error) =>
      var thrown := if error.Some? && error.value != "" then error.value else RefusedDefault;
      if thrown != "" then thrown else ThrewDefault
    case Threw(message) =>
      if message != "" then message else ThrewDefault
  }

  /** The two input guards of `analyzeEmotion`, both on the trimmed text, in their order. */
  function InputError(input: string): (e: Option<string>)
    ensures e == Some(EmptyInputError) <==> Strip(input, IsSpace) == []
    ensures e == Some(LongInputError) <==> |Strip(input, IsSpace)| > MaxInputLength
    ensures e == None <==> 1 <= |Strip(input, IsSpace)| <= MaxInputLength
  {
    var text := Strip(input, IsSpace);
    if text == [] then Some(EmptyInputError)
    else if |text| > MaxInputLength then Some(LongInputError)
    else None
  }

  /** Every field of `MoodMorphApp`, so that a method can state its whole new state at once. */
  datatype Page = Page(
    inputValue: string,
    isAnalyzing: bool,
    currentEmotion: Option<string>,
    currentOppositeEmotion: Option<string>,
    charCount: nat,
    countStyle: CountStyle,
    analyzeDisabled: bool,
    errorText: string,
    errorVisible: bool,
    detectedBadge: string,
    oppositeBadge: string,
    barTone: BarTone,
    barWidth: real)

  /** The page after `updateCharCount`. */
  function CounterUpdated(p: Page): Page {
    p.(charCount := |p.inputValue|,
       countStyle := CountStyleFor(|p.inputValue|),
       analyzeDisabled := AnalyzeDisabled(|p.inputValue|, p.isAnalyzing))
  }

  /** The page after `displayResults`: both labels kept, badges capitalised, the bar set. */
  function Displayed(p: Page, detected: string, opposite: string, sentimentScore: real): Page {
    p.(currentEmotion := Some(detected),
       currentOppositeEmotion := Some(opposite),
       detectedBadge := CapitalizeFirst(detected),
       oppositeBadge := CapitalizeFirst(opposite),
       barTone := BarToneFor(sentimentScore),
       barWidth := BarWidth(sentimentScore))
  }

  /**
   * The page once a request that passed the guards has settled: the loading state is
   * entered and the banner hidden, then the reply is displayed or its failure shown, and
   * the `finally` block clears the flag and recomputes the counter and button.
   */
  function Settled(p: Page, outcome: AnalysisOutcome): Page {
    var loading := p.(isAnalyzing := true, analyzeDisabled := true, errorVisible := false);
    var answered :=
      match outcome
      case Succeeded(detected, opposite, sentimentScore) => Displayed(loading, detected, opposite, sentimentScore)
      case _ => loading.(errorText := FailureMessage(outcome), errorVisible := true);
    CounterUpdated(answered.(isAnalyzing := false, analyzeDisabled := false))
  }

  /**
   * What a settled request leaves behind: analysis is over, the input is untouched, the
   * counter and button follow the input, a success shows both labels capitalised with the
   * banner hidden, and a failure keeps the previous labels and shows its message.
   */
  lemma SettledPage(p: Page, outcome: AnalysisOutcome)
    ensures var q := Settled(p, outcome);
      && !q.isAnalyzing
      && q.inputValue == p.inputValue
      && q.charCount == |p.inputValue| && q.countStyle == CountStyleFor(|p.inputValue|)
      && (q.analyzeDisabled <==> !(1 <= |p.inputValue| <= MaxInputLength))
      && (outcome.Succeeded? ==>
            && q.currentEmotion == Some(outcome.detectedEmotion)
            && q.currentOppositeEmotion == Some(outcome.oppositeEmotion)
            && q.detectedBadge == CapitalizeFirst(outcome.detectedEmotion)
            && q.oppositeBadge == CapitalizeFirst(outcome.oppositeEmotion)
            && q.barTone == BarToneFor(outcome.sentimentScore)
            && !q.errorVisible)
      && (!outcome.Succeeded? ==>
            && q.currentEmotion == p.currentEmotion
            && q.currentOppositeEmotion == p.currentOppositeEmotion
            && q.detectedBadge == p.detectedBadge && q.oppositeBadge == p.oppositeBadge
            && q.errorVisible && q.errorText != "")
  {
  }

  /** The `MoodMorphApp` object, reduced to the fields and widget states its logic sets. */
  class MoodMorphApp {
    /** `emotionInput.value`. */
    var inputValue: string
    var isAnalyzing: bool
    var currentEmotion: Option<string>
    var currentOppositeEmotion: Option<string>
    /** `charCount.textContent` and its class. */
    var charCount: nat
    var countStyle: CountStyle
    /** `analyzeBtn.disabled`. */
    var analyzeDisabled: bool
    /** `errorText.textContent` and whether the error banner is shown. */
    var errorText: string
    var errorVisible: bool
    /** The two emotion badges' text. */
    var detectedBadge: string
    var oppositeBadge: string
    /** The sentiment bar's colour class and width. */
    var barTone: BarTone
    var barWidth: real

    function State(): Page
      reads this
    {
      Page(inputValue, isAnalyzing, currentEmotion, currentOppositeEmotion,
           charCount, countStyle, analyzeDisabled, errorText, errorVisible,
           detectedBadge, oppositeBadge, barTone, barWidth)
    }

    /** The constructor's own assignments; the widgets start as the page renders them. */
    constructor (initialInput: string)
      ensures inputValue == initialInput
      ensures currentEmotion == None && currentOppositeEmotion == None && !isAnalyzing
    {
      inputValue := initialInput;
      currentEmotion := None;
      currentOppositeEmotion := None;
      isAnalyzing := false;
    }

    /** `updateCharCount`: counter text and class, and the button rule, from the current length. */
    method UpdateCharCount()
      modifies this
      ensures State() == CounterUpdated(old(State()))
    {
      var length := |inputValue|;
      charCount := length;
      countStyle := Plain;
      if length > DangerLength {
        countStyle := Danger;
      } else if length > WarningLength {
        countStyle := Warning;
      }
      analyzeDisabled := length == 0 || length > MaxInputLength || isAnalyzing;
    }

    /** `showError`: set the banner text and show it (the five-second auto-hide is a timer). */
    method ShowError(message: string)
      modifies this
      ensures State() == old(State()).(errorText := message, errorVisible := true)
    {
      errorText := message;
      errorVisible := true;
    }

    /** `displayResults`, reduced to the labels, the badges and the sentiment bar. */
    method DisplayResults(detected: string, opposite: string, sentimentScore: real)
      modifies this
      ensures State() == Displayed(old(State()), detected, opposite, sentimentScore)
    {
      currentEmotion := Some(detected);
      currentOppositeEmotion := Some(opposite);
      detectedBadge := CapitalizeFirst(detected);
      oppositeBadge := CapitalizeFirst(opposite);
      barWidth := BarWidth(sentimentScore);
      barTone := BarToneFor(sentimentScore);
    }

    /**
     * `analyzeEmotion`. Text that is empty after trimming, or longer than 500 characters
     * after trimming, only raises the error banner; otherwise the request runs and
     * settles as `Settled` describes (see `SettledPage`).
     */
    method AnalyzeEmotion(outcome: AnalysisOutcome)
      modifies this
      ensures InputError(old(inputValue)).Some? ==>
        State() == old(State()).(errorText := InputError(old(inputValue)).value, errorVisible := true)
      ensures InputError(old(inputValue)).None? ==> State() == Settled(old(State()), outcome)
    {
      var text := Strip(inputValue, IsSpace);
      if text == [] {
        ShowError(EmptyInputError);
        return;
      }
      if |text| > MaxInputLength {
        ShowError(LongInputError);
        return;
      }
      RunAnalysis(outcome);
    }

    /**
     * The body of `analyzeEmotion` past its input guards: show the loading state, hide the
     * banner, display the reply or show the failure, then the `finally` block.
     */
    method RunAnalysis(outcome: AnalysisOutcome)
      modifies this
      ensures State() == Settled(old(State()), outcome)
    {
      ghost var before := State();
      isAnalyzing := true;
      analyzeDisabled := true;   // showLoading
      errorVisible := false;     // hideError
      assert State() == before.(isAnalyzing := true, analyzeDisabled := true, errorVisible := false);

      match outcome {
        case Succeeded(detected, opposite, sentimentScore) =>
          DisplayResults(detected, opposite, sentimentScore);
        case _ =>
          ShowError(FailureMessage(outcome));
      }
      ghost var answered := State();

      isAnalyzing := false;
      analyzeDisabled := false;  // hideLoading
      assert State() == answered.(isAnalyzing := false, analyzeDisabled := false);
      UpdateCharCount();
    }
  }
}
