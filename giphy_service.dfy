/**
 * `giphy_service.py`: search-term tables, the try-each-term fetch loop and the layered
 * fallback URLs. A GIPHY search is an oracle `search(term, limit)`. It returns the
 * reply as the service reads it. Each random pick is an index chosen by the caller.
 */
module GiphyService {
  import opened Wrappers
  import opened Strings
  import opened Choice
  import EmotionAnalyzer

  /**
   * One search request. `data` is the reply's `data` field, absent as `None`, with each
   * result given by its original-image URL. `RequestFailed` is a `requests.RequestException`
   * (connection error, timeout).
   */
  datatype SearchReply =
    | Reply(status: int, data: Option<seq<string>>)
    | RequestFailed

  /** The result of the fetch loop: a URL, `None` after every term failed, or an escaping `KeyError`. */
  datatype FetchOutcome = Fetched(url: string) | NoGif | Failed

  /** `limit` of the fetch loop (`self.limit`) and of the two single searches. */
  const FetchLimit: nat := 20
  const SearchLimit: nat := 15

  const PositiveGif := "https://media.giphy.com/media/l0MYC0LajbaPoEADu/giphy.gif"

  const FallbackGifs: map<string, string> := map[
    "happy" := "https://media.giphy.com/media/l0MYC0LajbaPoEADu/giphy.gif",
    "calm" := "https://media.giphy.com/media/3o7TKTDn976rzVgky4/giphy.gif",
    "relaxed" := "https://media.giphy.com/media/l0MYGb8Q5QnhZ4RJm/giphy.gif",
    "connected" := "https://media.giphy.com/media/l0MYRBdnQGRiWC8Fy/giphy.gif",
    "energized" := "https://media.giphy.com/media/l0MYKnSyyXom5PPrO/giphy.gif",
    "clear" := "https://media.giphy.com/media/3o7TKP2ZNeTevHU4r6/giphy.gif",
    "hopeful" := "https://media.giphy.com/media/3o7TKRwpns23QMNNiE/giphy.gif",
    "forgiven" := "https://media.giphy.com/media/l0MYGb8Q5QnhZ4RJm/giphy.gif",
    "positive" := "https://media.giphy.com/media/l0MYC0LajbaPoEADu/giphy.gif",
    "uplifted" := "https://media.giphy.com/media/3o7TKTDn976rzVgky4/giphy.gif"
  ]

  /** The `emotion_terms` table of `_get_search_terms`. */
  const EmotionTerms: map<string, seq<string>> := map[
    "happy" := ["happy", "joy", "smile", "celebration", "laughter", "fun"],
    "calm" := ["calm", "peaceful", "zen", "meditation", "tranquil"],
    "relaxed" := ["relaxed", "chill", "peaceful", "breathing", "zen"],
    "connected" := ["friendship", "love", "together", "hug", "connection"],
    "energized" := ["energy", "excited", "pumped up", "motivation", "power"],
    "clear" := ["clarity", "understanding", "lightbulb", "solution", "eureka"],
    "hopeful" := ["hope", "optimism", "bright future", "dreams", "possibility"],
    "forgiven" := ["forgiveness", "peace", "self love", "acceptance"],
    "positive" := ["positive", "good vibes", "optimism", "sunshine"],
    "uplifted" := ["uplifting", "inspiration", "motivation", "encouragement"]
  ]

  const DefaultTerms: seq<string> := ["happy", "positive", "good vibes"]

  /** The `emotion_gifs` table of `get_emotion_appropriate_gif`. */
  const EmotionGifs: map<string, seq<string>> := map[
    "sad" := ["cute animals", "funny cats", "heartwarming", "comfort", "virtual hug"],
    "angry" := ["zen", "peaceful nature", "calming", "breathe", "meditation"],
    "anxious" := ["calm", "peaceful", "breathe slowly", "relaxing", "gentle"],
    "lonely" := ["friendship", "community", "love", "connection", "support"],
    "tired" := ["rest", "cozy", "peaceful sleep", "gentle", "comfort"],
    "confused" := ["clarity", "lightbulb moment", "understanding", "clear path"],
    "frustrated" := ["zen", "patience", "calm down", "peace"],
    "worried" := ["reassuring", "its okay", "calm", "support"],
    "stressed" := ["relax", "breathe", "peaceful", "zen garden"],
    "disappointed" := ["hope", "tomorrow", "new beginnings", "encouragement"],
    "overwhelmed" := ["one step", "slow down", "breathe", "simple"],
    "hurt" := ["healing", "comfort", "gentle care", "recovery"],
    "fearful" := ["brave", "courage", "strong", "you got this"],
    "rejected" := ["self love", "worth", "acceptance", "valuable"],
    "guilty" := ["forgiveness", "its okay", "move forward", "self compassion"],
    "helpless" := ["strength", "you can do it", "empowerment", "capable"]
  ]

  const DefaultGifTerms: seq<string> := ["uplifting", "positive", "smile"]

  // ---------------------------------------------------------------------------
  // Replies
  // ---------------------------------------------------------------------------

  /** A 200 reply with a non-empty `data` list: a GIF is picked from it. */
  predicate Hit(reply: SearchReply) {
    reply.Reply? && reply.status == 200 && reply.data.Some? && reply.data.value != []
  }

  /** A 200 reply without a `data` field: `data['data']` raises `KeyError`. */
  predicate MissingData(reply: SearchReply) {
    reply.Reply? && reply.status == 200 && reply.data.None?
  }

  /** A reply after which the fetch loop moves on to the next term. */
  predicate MovesOn(reply: SearchReply) {
    !Hit(reply) && !MissingData(reply)
  }

  /** The fallback lookup is total: the `'positive'` key is present and holds the URL used as the literal default. */
  lemma PositiveFallbackPresent()
    ensures "positive" in FallbackGifs && FallbackGifs["positive"] == PositiveGif
    ensures forall e :: e in FallbackGifs ==> FallbackGifs[e] != ""
  {
  }

  // ---------------------------------------------------------------------------
  // Search terms and the fetch loop
  // ---------------------------------------------------------------------------

  /** `_get_search_terms`: the emotion's terms, or the generic default; never empty. */
  function GetSearchTerms(emotion: string): (r: seq<string>)
    ensures emotion in EmotionTerms ==> r == EmotionTerms[emotion]
    ensures emotion !in EmotionTerms ==> r == DefaultTerms
    ensures |r| > 0
  {
    if emotion in EmotionTerms then EmotionTerms[emotion] else DefaultTerms
  }

  /**
   * What `_fetch_from_giphy` returns: the pick from the first term whose reply is a hit,
   * `Failed` when a reply before any hit lacks `data`, and `NoGif` when every reply moves on.
   */
  function FirstHit(terms: seq<string>, search: (string, nat) -> SearchReply, pick: nat): (r: FetchOutcome)
    ensures r.NoGif? <==> forall i :: 0 <= i < |terms| ==> MovesOn(search(terms[i], FetchLimit))
    ensures r.Fetched? ==>
      exists i :: 0 <= i < |terms| && Hit(search(terms[i], FetchLimit))
        && r.url == Choose(search(terms[i], FetchLimit).data.value, pick)
        && forall j :: 0 <= j < i ==> MovesOn(search(terms[j], FetchLimit))
    ensures r.Failed? ==>
      exists i :: 0 <= i < |terms| && MissingData(search(terms[i], FetchLimit))
        && forall j :: 0 <= j < i ==> MovesOn(search(terms[j], FetchLimit))
    decreases |terms|
  {
    if terms == [] then NoGif
    else
      var reply := search(terms[0], FetchLimit);
      if Hit(reply) then
        Fetched(Choose(reply.data.value, pick))
      else if MissingData(reply) then
        Failed
      else
        var rest := FirstHit(terms[1..], search, pick);
        assert forall i :: 1 <= i < |terms| ==> terms[i] == terms[1..][i - 1];
        if rest.Fetched? then
          var k :| 0 <= k < |terms[1..]| && Hit(search(terms[1..][k], FetchLimit))
            && rest.url == Choose(search(terms[1..][k], FetchLimit).data.value, pick)
            && forall j :: 0 <= j < k ==> MovesOn(search(terms[1..][j], FetchLimit));
          assert terms[k + 1] == terms[1..][k];
          rest
        else if rest.Failed? then
          var k :| 0 <= k < |terms[1..]| && MissingData(search(terms[1..][k], FetchLimit))
            && forall j :: 0 <= j < k ==> MovesOn(search(terms[1..][j], FetchLimit));
          assert terms[k + 1] == terms[1..][k];
          rest
        else
          rest
  }

  /**
   * `_fetch_from_giphy`: tries the terms in order and stops at the first hit (or at the
   * `KeyError`). `requests` counts the searches issued: one per term tried, never more than
   * `|terms|`, and all of them when no GIF is found.
   */
  method FetchFromGiphy(terms: seq<string>, search: (string, nat) -> SearchReply, pick: nat)
    returns (r: FetchOutcome, ghost requests: nat)
    ensures r == FirstHit(terms, search, pick)
    ensures requests <= |terms|
    ensures r.NoGif? ==> requests == |terms|
    ensures !r.NoGif? ==> 1 <= requests && !MovesOn(search(terms[requests - 1], FetchLimit))
    ensures forall j :: 0 <= j < requests - 1 ==> MovesOn(search(terms[j], FetchLimit))
  {
    var i := 0;
    requests := 0;
    while i < |terms|
      invariant 0 <= i <= |terms| && requests == i
      invariant FirstHit(terms[i..], search, pick) == FirstHit(terms, search, pick)
      invariant forall j :: 0 <= j < i ==> MovesOn(search(terms[j], FetchLimit))
    {
      assert terms[i..][1..] == terms[i + 1..];
      var reply := search(terms[i], FetchLimit);
      requests := requests + 1;
      if reply.Reply? && reply.status == 200 {
        if reply.data.None? {
          return Failed, requests;
        }
        if reply.data.value != [] {
          return Fetched(Choose(reply.data.value, pick)), requests;
        }
      }
      i := i + 1;
    }
    return NoGif, requests;
  }

  // ---------------------------------------------------------------------------
  // Fallback layers
  // ---------------------------------------------------------------------------

  /** `fallback_gifs.get(emotion, fallback_gifs['positive'])`: never empty. */
  function FallbackFor(emotion: string): (url: string)
    ensures emotion in FallbackGifs ==> url == FallbackGifs[emotion]
    ensures emotion !in FallbackGifs ==> url == PositiveGif
    ensures url != ""
  {
    PositiveFallbackPresent();
    if emotion in FallbackGifs then FallbackGifs[emotion] else FallbackGifs["positive"]
  }

  /**
   * `get_opposite_emotion_gif`: the fetched URL when there is a non-empty one; on no result,
   * an empty URL or the `KeyError`, the opposite's own fallback, else the `'positive'` one.
   * The result is never empty.
   */
  method GetOppositeEmotionGif(opposite: string, search: (string, nat) -> SearchReply, pick: nat)
    returns (url: string)
    ensures url != ""
    ensures var f := FirstHit(GetSearchTerms(opposite), search, pick);
      (f.Fetched? && f.url != "" ==> url == f.url)
      && (!(f.Fetched? && f.url != "") ==> url == FallbackFor(opposite))
    ensures (forall t :: t in GetSearchTerms(opposite) ==> !Hit(search(t, FetchLimit))) ==>
      url == FallbackFor(opposite)
  {
    var terms := GetSearchTerms(opposite);
    var outcome, _ := FetchFromGiphy(terms, search, pick);
    if outcome.Fetched? && outcome.url != "" {
      url := outcome.url;
    } else {
      url := FallbackFor(opposite);
    }
  }

  /** The terms `get_emotion_appropriate_gif` draws from, looked up by lower-cased emotion. */
  function EmotionGifTerms(emotion: string): (r: seq<string>)
    ensures Lower(emotion) in EmotionGifs ==> r == EmotionGifs[Lower(emotion)]
    ensures Lower(emotion) !in EmotionGifs ==> r == DefaultGifTerms
    ensures |r| > 0
  {
    var key := Lower(emotion);
    if key in EmotionGifs then EmotionGifs[key] else DefaultGifTerms
  }

  /**
   * `get_emotion_appropriate_gif`: one search for a term picked from the emotion's list;
   * a GIF from a hit, else the `'positive'` fallback whatever the emotion.
   */
  function GetEmotionAppropriateGif(
    emotion: string, search: (string, nat) -> SearchReply, termPick: nat, gifPick: nat): (url: string)
    ensures var term := Choose(EmotionGifTerms(emotion), termPick);
      && term in EmotionGifTerms(emotion)
      && (Hit(search(term, SearchLimit)) ==> url in search(term, SearchLimit).data.value)
      && (!Hit(search(term, SearchLimit)) ==> url == PositiveGif)
  {
    PositiveFallbackPresent();
    var term := Choose(EmotionGifTerms(emotion), termPick);
    var reply := search(term, SearchLimit);
    if Hit(reply) then Choose(reply.data.value, gifPick) else FallbackGifs["positive"]
  }

  /** The emotion's case does not matter to `get_emotion_appropriate_gif`. */
  lemma EmotionAppropriateGifIgnoresCase(
    emotion: string, search: (string, nat) -> SearchReply, termPick: nat, gifPick: nat)
    ensures GetEmotionAppropriateGif(Lower(emotion), search, termPick, gifPick)
         == GetEmotionAppropriateGif(emotion, search, termPick, gifPick)
  {
    LowerIdempotent(emotion);
  }

  /**
   * `search_contextual_gif`: a GIF from a hit on the keyword itself, else whatever
   * `get_emotion_appropriate_gif` gives for the detected emotion.
   */
  function SearchContextualGif(
    keyword: string, detectedEmotion: string, search: (string, nat) -> SearchReply,
    gifPick: nat, termPick: nat, fallbackGifPick: nat): (url: string)
    ensures Hit(search(keyword, SearchLimit)) ==> url in search(keyword, SearchLimit).data.value
    ensures !Hit(search(keyword, SearchLimit)) ==>
      url == GetEmotionAppropriateGif(detectedEmotion, search, termPick, fallbackGifPick)
  {
    var reply := search(keyword, SearchLimit);
    if Hit(reply) then Choose(reply.data.value, gifPick)
    else GetEmotionAppropriateGif(detectedEmotion, search, termPick, fallbackGifPick)
  }

  /**
   * When GIPHY is unreachable, the contextual search ends at the `'positive'` fallback,
   * whatever keyword and emotion it was given.
   */
  lemma UnreachableGiphyGivesPositiveGif(
    keyword: string, detectedEmotion: string, gifPick: nat, termPick: nat, fallbackGifPick: nat)
    ensures SearchContextualGif(keyword, detectedEmotion, (t, n) => RequestFailed, gifPick, termPick, fallbackGifPick)
         == PositiveGif
  {
  }

  /**
   * Every opposite the keyword analyser produces has its own entry in both tables here,
   * so neither the search-term default nor the `'positive'` URL default is reached for it.
   */
  lemma AnalyzerOppositesHaveGifs(emotion: string)
    ensures EmotionAnalyzer.OppositeOf(emotion) in EmotionTerms
    ensures EmotionAnalyzer.OppositeOf(emotion) in FallbackGifs
  {
  }
}
