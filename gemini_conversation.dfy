/**
 * The language-model side of `gemini_conversation.py`: the context window sent with a
 * message, the decision from the two remote answers to one result (with its fallbacks),
 * the LM's own opposite-emotion table, the GIF keyword choice, and the bounded
 * conversation history kept on the client object.
 */
module GeminiConversation {
  import opened Wrappers
  import opened Strings
  import opened Window
  import EmotionAnalyzer

  /** A session context entry as the chat handler stores it (`{'sender', 'text', 'timestamp'}`). */
  datatype Turn = Turn(sender: string, text: string, timestamp: string)

  /** A role-tagged message sent to the model (`types.Content` with one text part). */
  datatype Content = Content(role: string, text: string)

  /** What a remote generation call gave: its text (empty when there is none) or an exception. */
  datatype LmCall = Answered(text: string) | Raised

  /** The structured emotion analysis the second call is asked for. */
  datatype EmotionData = EmotionData(
    emotion: string, intensity: real, context: string, gifKeywords: seq<string>, conversationTone: string)

  /** The result of `analyze_emotion_and_respond`. */
  datatype AiResult = AiResult(
    response: string, detectedEmotion: string, emotionIntensity: real, context: string,
    oppositeEmotion: string, gifKeywords: seq<string>, conversationTone: string)

  /** How many earlier turns go with a new message. */
  const ContextTurns: nat := 6

  /** How many exchanges the client remembers. */
  const HistoryLimit: nat := 10

  const EmptyReplyText := "I'm here for you. Tell me more about what's on your mind."

  /** Substituted when the structured call answers with no text. */
  const DefaultEmotionData :=
    EmotionData("neutral", 0.5, "general conversation", ["uplifting", "positive", "smile"], "supportive")

  /** The result of the exception path. */
  const FallbackResult := AiResult(
    "I'm here to listen and support you. What's been on your mind lately?",
    "neutral", 0.5, "fallback response", "positive", ["supportive", "caring", "comfort"], "supportive")

  // ---------------------------------------------------------------------------
  // Context window (analyze_emotion_and_respond, lines 77-85)
  // ---------------------------------------------------------------------------

  /** A sender of `'user'` speaks as the user; anyone else as the model. */
  function RoleOf(sender: string): (role: string)
    ensures role == "user" <==> sender == "user"
    ensures role == "user" || role == "model"
  {
    if sender == "user" then "user" else "model"
  }

  function AsContent(t: Turn): Content {
    Content(RoleOf(t.sender), t.text)
  }

  /** The messages sent with `userMessage`: the last six turns of `ctx`, role-mapped, then the new message. */
  function ContextFor(ctx: seq<Turn>, userMessage: string): (msgs: seq<Content>)
    ensures |msgs| == (if |ctx| < ContextTurns then |ctx| else ContextTurns) + 1
    ensures msgs[|msgs| - 1] == Content("user", userMessage)
    ensures forall i :: 0 <= i < |msgs| - 1 ==> msgs[i] == AsContent(ctx[|ctx| - (|msgs| - 1) + i])
  {
    var recent := KeepLast(ctx, ContextTurns);
    seq(|recent|, i requires 0 <= i < |recent| => AsContent(recent[i])) + [Content("user", userMessage)]
  }

  /** The context-building loop: one message per recent turn, then the new message. */
  method BuildContext(ctx: seq<Turn>, userMessage: string) returns (msgs: seq<Content>)
    ensures msgs == ContextFor(ctx, userMessage)
  {
    msgs := [];
    var recent := KeepLast(ctx, ContextTurns);
    var i := 0;
    while i < |recent|
      invariant 0 <= i <= |recent|
      invariant |msgs| == i
      invariant forall j :: 0 <= j < i ==> msgs[j] == AsContent(recent[j])
    {
      msgs := msgs + [Content(RoleOf(recent[i].sender), recent[i].text)];
      i := i + 1;
    }
    msgs := msgs + [Content("user", userMessage)];
  }

  // ---------------------------------------------------------------------------
  // Opposite emotion and GIF keyword (_get_opposite_emotion, get_contextual_gif_search)
  // ---------------------------------------------------------------------------

  /** The LM client's own opposite-emotion table (kept apart from the classifier's). */
  const EmotionMap: map<string, string> := map[
    "sad" := "joyful",
    "angry" := "peaceful",
    "anxious" := "calm",
    "lonely" := "connected",
    "tired" := "energized",
    "confused" := "clear",
    "frustrated" := "satisfied",
    "disappointed" := "hopeful",
    "overwhelmed" := "balanced",
    "depressed" := "uplifted",
    "stressed" := "relaxed",
    "worried" := "confident",
    "fearful" := "brave",
    "guilty" := "forgiven",
    "ashamed" := "proud",
    "hurt" := "healing",
    "rejected" := "accepted",
    "helpless" := "empowered"
  ]

  /** `_get_opposite_emotion`: a lookup of the lower-cased label, `'positive'` when unmapped. */
  function OppositeEmotion(emotion: string): (r: string)
    ensures Lower(emotion) in EmotionMap ==> r == EmotionMap[Lower(emotion)]
    ensures Lower(emotion) !in EmotionMap ==> r == "positive"
    ensures r != ""
  {
    if Lower(emotion) in EmotionMap then EmotionMap[Lower(emotion)] else "positive"
  }

  /** The lookup ignores case. */
  lemma OppositeEmotionIgnoresCase(emotion: string)
    ensures OppositeEmotion(emotion) == OppositeEmotion(Lower(emotion))
  {
    LowerIdempotent(emotion);
  }

  /**
   * The two opposite tables are kept apart and disagree: the keyword classifier maps `sad`
   * to `happy`, the LM client to `joyful`.
   */
  lemma OppositeTablesDisagreeOnSad()
    ensures EmotionAnalyzer.OppositeOf("sad") == "happy"
    ensures OppositeEmotion("sad") == "joyful"
  {
    assert Lower("sad") == "sad";
  }

  /** Which keywords count as a priority for an emotion; `None` means every keyword does. */
  function PriorityKeywords(emotion: string): Option<set<string>> {
    if emotion in {"sad", "depressed", "hurt"} then Some({"cute", "funny", "adorable", "heartwarming", "comfort"})
    else if emotion in {"angry", "frustrated"} then Some({"calming", "peaceful", "zen", "nature", "breathe"})
    else if emotion in {"anxious", "worried", "stressed"} then Some({"calming", "peaceful", "breathe", "meditation", "nature"})
    else if emotion in {"lonely", "isolated"} then Some({"friendship", "love", "connection", "community", "support"})
    else if emotion in {"tired", "exhausted"} then Some({"rest", "cozy", "peaceful", "gentle", "comfort"})
    else None
  }

  /** The list comprehension `[kw for kw in keywords if kw in priority]`. */
  function Prioritized(keywords: seq<string>, priority: set<string>): (r: seq<string>)
    ensures forall x :: x in r <==> x in keywords && x in priority
    ensures r == [] <==> forall x :: x in keywords ==> x !in priority
    decreases |keywords|
  {
    if keywords == [] then []
    else
      var rest := Prioritized(keywords[1..], priority);
      assert forall x :: x in keywords[1..] ==> x in keywords;
      assert forall x :: x in keywords ==> x == keywords[0] || x in keywords[1..];
      if keywords[0] in priority then [keywords[0]] + rest else rest
  }

  /** `r` is `s` with some elements left out and the rest in their original order. */
  predicate Subsequence(r: seq<string>, s: seq<string>)
    decreases |s|
  {
    if r == [] then true
    else if s == [] then false
    else if r[0] == s[0] then Subsequence(r[1..], s[1..])
    else Subsequence(r, s[1..])
  }

  /**
   * The comprehension keeps the input's order, and keeps every priority keyword exactly as
   * often as it occurs while dropping every other one.
   */
  lemma {:induction false} PrioritizedKeepsOrder(keywords: seq<string>, priority: set<string>)
    ensures Subsequence(Prioritized(keywords, priority), keywords)
    ensures forall x ::
      multiset(Prioritized(keywords, priority))[x] == (if x in priority then multiset(keywords)[x] else 0)
    decreases |keywords|
  {
    if keywords != [] {
      var k := keywords[0];
      var rest := Prioritized(keywords[1..], priority);
      PrioritizedKeepsOrder(keywords[1..], priority);
      assert multiset(keywords) == multiset{k} + multiset(keywords[1..]) by {
        assert keywords == [k] + keywords[1..];
      }
      if k in priority {
        assert Prioritized(keywords, priority) == [k] + rest;
        assert multiset([k] + rest) == multiset{k} + multiset(rest);
      } else if rest != [] {
        assert rest[0] in priority;
      }
    }
  }

  /** `k` is the first index whose keyword is a priority keyword. */
  predicate FirstPriorityAt(keywords: seq<string>, priority: set<string>, k: int) {
    && 0 <= k < |keywords|
    && keywords[k] in priority
    && forall j :: 0 <= j < k ==> keywords[j] !in priority
  }

  lemma {:induction false} PrioritizedHead(keywords: seq<string>, priority: set<string>, k: int)
    requires FirstPriorityAt(keywords, priority, k)
    ensures Prioritized(keywords, priority) != [] && Prioritized(keywords, priority)[0] == keywords[k]
    decreases |keywords|
  {
    if k > 0 {
      assert FirstPriorityAt(keywords[1..], priority, k - 1);
      PrioritizedHead(keywords[1..], priority, k - 1);
    }
  }

  /** `get_contextual_gif_search`: the first priority keyword, else the first keyword, else `'uplifting'`. */
  function GetContextualGifSearch(emotion: string, keywords: seq<string>, context: string): (term: string)
    ensures term in keywords || (keywords == [] && term == "uplifting")
  {
    var candidates := match PriorityKeywords(emotion)
      case None => keywords
      case Some(p) => Prioritized(keywords, p);
    if candidates != [] then candidates[0]
    else if keywords != [] then keywords[0]
    else "uplifting"
  }

  /**
   * The term chosen is the earliest keyword, in list order, that lies in the emotion's
   * priority set; with no priority keyword (or no priority set) it is the first keyword.
   */
  lemma ContextualGifSearchPicksEarliest(emotion: string, keywords: seq<string>, context: string)
    ensures PriorityKeywords(emotion).Some? ==>
      forall k :: FirstPriorityAt(keywords, PriorityKeywords(emotion).value, k) ==>
        GetContextualGifSearch(emotion, keywords, context) == keywords[k]
    ensures (PriorityKeywords(emotion).None? ||
             forall x :: x in keywords ==> x !in PriorityKeywords(emotion).value) ==>
      GetContextualGifSearch(emotion, keywords, context) == if keywords == [] then "uplifting" else keywords[0]
  {
    if PriorityKeywords(emotion).Some? {
      forall k | FirstPriorityAt(keywords, PriorityKeywords(emotion).value, k)
        ensures GetContextualGifSearch(emotion, keywords, context) == keywords[k]
      {
        PrioritizedHead(keywords, PriorityKeywords(emotion).value, k);
      }
    }
  }

  // ---------------------------------------------------------------------------
  // One exchange with the model (analyze_emotion_and_respond)
  // ---------------------------------------------------------------------------

  /**
   * The result built from the two remote answers. `reply` is the free-text call,
   * `analysis` the structured call, `parse` stands for `json.loads` followed by reading
   * the five fields (`None` when that raises).
   */
  function Respond(reply: LmCall, analysis: LmCall, parse: string -> Option<EmotionData>): (r: AiResult)
    ensures reply.Raised? || analysis.Raised? || (analysis.text != "" && parse(analysis.text).None?)
      ==> r == FallbackResult
    ensures reply.Answered? && analysis.Answered? && (analysis.text == "" || parse(analysis.text).Some?) ==>
      && r.response == (if reply.text == "" then EmptyReplyText else reply.text)
      && (analysis.text == "" ==>
            (&& r.detectedEmotion == "neutral" && r.emotionIntensity == 0.5
             && r.context == "general conversation" && r.gifKeywords == ["uplifting", "positive", "smile"]
             && r.conversationTone == "supportive"))
      && (analysis.text != "" ==>
            var d := parse(analysis.text).value;
            (&& r.detectedEmotion == d.emotion && r.emotionIntensity == d.intensity && r.context == d.context
             && r.gifKeywords == d.gifKeywords && r.conversationTone == d.conversationTone))
    ensures r.oppositeEmotion == OppositeEmotion(r.detectedEmotion)
    ensures r.response != ""
  {
    FallbackOppositeIsConsistent();
    if reply.Raised? || analysis.Raised? then FallbackResult
    else
      var response := if reply.text != "" then reply.text else EmptyReplyText;
      var data := if analysis.text != "" then parse(analysis.text) else Some(DefaultEmotionData);
      match data
      case None => FallbackResult
      case Some(d) =>
        AiResult(response, d.emotion, d.intensity, d.context, OppositeEmotion(d.emotion), d.gifKeywords, d.conversationTone)
  }

  /** The fallback result is consistent with the LM opposite table too. */
  lemma FallbackOppositeIsConsistent()
    ensures FallbackResult.oppositeEmotion == OppositeEmotion(FallbackResult.detectedEmotion)
  {
    assert Lower("neutral") == "neutral";
  }

  /** One remembered exchange (`conversation_history` entry). */
  datatype Exchange = Exchange(userMessage: string, aiResponse: string, emotion: string, timestamp: string)

  /** `GeminiConversationAI`: the client object and its process-wide history. */
  class GeminiConversationAI {
    var conversationHistory: seq<Exchange>

    ghost predicate Valid()
      reads this
    {
      |conversationHistory| <= HistoryLimit
    }

    constructor ()
      ensures Valid() && conversationHistory == []
    {
      conversationHistory := [];
    }

    /**
     * `analyze_emotion_and_respond`. `generate` is the free-text call on the role-tagged
     * messages, `extract` the structured call on the prompt built from the message.
     */
    method AnalyzeEmotionAndRespond(
      userMessage: string, conversationContext: seq<Turn>,
      generate: seq<Content> -> LmCall, extract: string -> LmCall, parse: string -> Option<EmotionData>)
      returns (r: AiResult)
      ensures r == Respond(generate(ContextFor(conversationContext, userMessage)), extract(userMessage), parse)
    {
      var contextMessages := BuildContext(conversationContext, userMessage);
      var reply := generate(contextMessages);
      if reply.Raised? {
        return FallbackResult;
      }
      var conversationalResponse := if reply.text != "" then reply.text else EmptyReplyText;
      var analysis := extract(userMessage);
      if analysis.Raised? {
        return FallbackResult;
      }
      var emotionData := DefaultEmotionData;
      if analysis.text != "" {
        var parsed := parse(analysis.text);
        if parsed.None? {
          return FallbackResult;
        }
        emotionData := parsed.value;
      }
      var opposite := OppositeEmotion(emotionData.emotion);
      r := AiResult(conversationalResponse, emotionData.emotion, emotionData.intensity, emotionData.context,
                    opposite, emotionData.gifKeywords, emotionData.conversationTone);
    }

    /** `save_conversation_context`: append one exchange, then keep the last ten (FIFO). */
    method SaveConversationContext(userMessage: string, aiResponse: string, emotionData: AiResult)
      requires Valid()
      modifies this
      ensures Valid()
      ensures var entry := Exchange(userMessage, aiResponse, emotionData.detectedEmotion, "now");
        && |conversationHistory| > 0 && conversationHistory[|conversationHistory| - 1] == entry
        && (|old(conversationHistory)| < HistoryLimit ==> conversationHistory == old(conversationHistory) + [entry])
        && (|old(conversationHistory)| == HistoryLimit ==> conversationHistory == old(conversationHistory)[1..] + [entry])
    {
      var entry := Exchange(userMessage, aiResponse, emotionData.detectedEmotion, "now");
      AppendEvictsOldest(conversationHistory, entry, HistoryLimit);
      conversationHistory := conversationHistory + [entry];
      if |conversationHistory| > HistoryLimit {
        conversationHistory := conversationHistory[|conversationHistory| - HistoryLimit..];
      }
    }
  }
}
