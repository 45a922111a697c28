/**
 * `routes.py`, the `/api/chat` handler: request validation, the LM reply and GIF choice,
 * the session's rolling conversation context, the stored `EmotionRecord` and the LM
 * client's own history. One `ChatServer` object stands for one browser session together
 * with the process-wide LM client and the record table.
 */
module Routes {
  import opened Wrappers
  import opened Strings
  import opened Window
  import opened GeminiConversation
  import opened GiphyService

  /** Entries kept in `session['conversation_context']`. */
  const SessionLimit: nat := 10

  /** The row written to the `EmotionRecord` table (id and timestamp are the database's). */
  datatype EmotionRecord = EmotionRecord(
    userInput: string, detectedEmotion: string, sentimentScore: real,
    oppositeEmotion: string, gifUrl: string, therapeuticTool: string)

  /** The handler's answer: a 400 with its error text, or the success JSON. */
  datatype ChatReply =
    | BadRequest(error: string)
    | Replied(response: string, detectedEmotion: string, emotionIntensity: real, oppositeEmotion: string,
              gifUrl: string, gifKeywords: seq<string>, conversationTone: string, context: string)

  /** Outcome of the input checks: the error text, or the stripped message to process. */
  datatype Validation = Rejected(error: string) | Accepted(message: string)

  /**
   * The input checks. The JSON body is `None` when absent and otherwise an object of string
   * fields; an empty object is rejected with the same text as a missing key.
   */
  function ValidateRequest(body: Option<map<string, string>>): (v: Validation)
    ensures v == Rejected("No message provided") <==> body.None? || "message" !in body.value
    ensures v == Rejected("Empty message provided") <==>
      body.Some? && "message" in body.value && Strip(body.value["message"], IsPySpace) == []
    ensures v.Rejected? || v.Accepted?
    ensures v.Accepted? ==>
      body.Some? && "message" in body.value && v.message == Strip(body.value["message"], IsPySpace) && v.message != []
  {
    if body.None? || "message" !in body.value then Rejected("No message provided")
    else
      var userInput := Strip(body.value["message"], IsPySpace);
      if userInput == [] then Rejected("Empty message provided") else Accepted(userInput)
  }

  /** The two entries one exchange adds to the session context. */
  function ExchangeTurns(userInput: string, aiResponse: string): seq<Turn> {
    [Turn("user", userInput, "now"), Turn("bot", aiResponse, "now")]
  }

  /**
   * The session context after one exchange: the user entry and the bot entry appended, then
   * only the last ten kept. Only the oldest entries are dropped, and only when over ten.
   */
  function NextContext(ctx: seq<Turn>, userInput: string, aiResponse: string): (r: seq<Turn>)
    ensures |r| == if |ctx| + 2 <= SessionLimit then |ctx| + 2 else SessionLimit
    ensures r[|r| - 2] == Turn("user", userInput, "now") && r[|r| - 1] == Turn("bot", aiResponse, "now")
    ensures |ctx| + 2 <= SessionLimit ==> r == ctx + ExchangeTurns(userInput, aiResponse)
    ensures r == (ctx + ExchangeTurns(userInput, aiResponse))[|ctx| + 2 - |r|..]
  {
    KeepLast(ctx + ExchangeTurns(userInput, aiResponse), SessionLimit)
  }

  /** Entries come in (user, bot) pairs: an even number, alternating, starting with a user entry. */
  predicate Alternating(ctx: seq<Turn>)
    decreases |ctx|
  {
    ctx == [] || (|ctx| >= 2 && ctx[0].sender == "user" && ctx[1].sender == "bot" && Alternating(ctx[2..]))
  }

  /** Pairs followed by pairs are pairs. */
  lemma {:induction false} AlternatingAppend(a: seq<Turn>, b: seq<Turn>)
    requires Alternating(a) && Alternating(b)
    ensures Alternating(a + b)
    decreases |a|
  {
    if a != [] {
      AlternatingAppend(a[2..], b);
      assert (a + b)[2..] == a[2..] + b;
    } else {
      assert a + b == b;
    }
  }

  /** Dropping an even number of leading entries keeps the pairs. */
  lemma {:induction false} AlternatingDropEven(s: seq<Turn>, d: nat)
    requires Alternating(s) && d % 2 == 0 && d <= |s|
    ensures Alternating(s[d..])
    decreases d
  {
    if d > 0 {
      AlternatingDropEven(s[2..], d - 2);
      assert s[2..][d - 2..] == s[d..];
    }
  }

  /** An exchange keeps an alternating context alternating: truncation drops whole pairs. */
  lemma NextContextAlternates(ctx: seq<Turn>, userInput: string, aiResponse: string)
    requires Alternating(ctx)
    ensures Alternating(NextContext(ctx, userInput, aiResponse))
  {
    var pair := ExchangeTurns(userInput, aiResponse);
    assert pair[2..] == [];
    AlternatingAppend(ctx, pair);
    AlternatingLength(ctx);
    AlternatingDropEven(ctx + pair, |ctx| + 2 - |NextContext(ctx, userInput, aiResponse)|);
  }

  /** An alternating context has even length. */
  lemma {:induction false} AlternatingLength(ctx: seq<Turn>)
    requires Alternating(ctx)
    ensures |ctx| % 2 == 0
    decreases |ctx|
  {
    if ctx != [] {
      AlternatingLength(ctx[2..]);
    }
  }

  /** The in-place update of the session context: two appends, then the `[-10:]` slice when over ten. */
  method RollContext(ctx: seq<Turn>, userInput: string, aiResponse: string) returns (context: seq<Turn>)
    ensures context == NextContext(ctx, userInput, aiResponse)
  {
    context := ctx;
    context := context + [Turn("user", userInput, "now")];
    context := context + [Turn("bot", aiResponse, "now")];
    assert context == ctx + ExchangeTurns(userInput, aiResponse);
    if |context| > SessionLimit {
      context := context[|context| - SessionLimit..];
    }
  }

  /** The LM result for a message and the GIF chosen for it. */
  function Answer(
    ctx: seq<Turn>, userInput: string,
    generate: seq<Content> -> LmCall, extract: string -> LmCall, parse: string -> Option<EmotionData>,
    search: (string, nat) -> SearchReply, gifPick: nat, termPick: nat, fallbackGifPick: nat): (AiResult, string)
  {
    var result := Respond(generate(ContextFor(ctx, userInput)), extract(userInput), parse);
    var keyword := GetContextualGifSearch(result.detectedEmotion, result.gifKeywords, result.context);
    (result, SearchContextualGif(keyword, result.detectedEmotion, search, gifPick, termPick, fallbackGifPick))
  }

  class ChatServer {
    /** `session['conversation_context']`. */
    var conversationContext: seq<Turn>
    /** The rows committed to the `EmotionRecord` table, oldest first. */
    var records: seq<EmotionRecord>
    /** The module-level `conversation_ai`. */
    const conversationAi: GeminiConversationAI

    ghost predicate Valid()
      reads this, conversationAi
    {
      && conversationAi.Valid()
      && |conversationContext| <= SessionLimit
      && Alternating(conversationContext)
    }

    /** A fresh session (`session.get(..., [])`), an empty table and a new LM client. */
    constructor ()
      ensures Valid()
      ensures conversationContext == [] && records == []
      ensures fresh(conversationAi) && conversationAi.conversationHistory == []
    {
      conversationContext := [];
      records := [];
      conversationAi := new GeminiConversationAI();
    }

    /**
     * `chat()`. A rejected request changes nothing. An accepted one asks the LM with the
     * context as it was before this exchange, picks a GIF keyword and GIF, rolls the session
     * context, stores the record and saves the exchange in the client's history.
     */
    method Chat(
      body: Option<map<string, string>>,
      generate: seq<Content> -> LmCall, extract: string -> LmCall, parse: string -> Option<EmotionData>,
      search: (string, nat) -> SearchReply, gifPick: nat, termPick: nat, fallbackGifPick: nat)
      returns (reply: ChatReply)
      requires Valid()
      modifies this, conversationAi
      ensures Valid()
      ensures ValidateRequest(body).Rejected? ==>
        && reply == BadRequest(ValidateRequest(body).error)
        && conversationContext == old(conversationContext)
        && records == old(records)
        && conversationAi.conversationHistory == old(conversationAi.conversationHistory)
      ensures ValidateRequest(body).Accepted? ==>
        var userInput := ValidateRequest(body).message;
        var (result, gifUrl) := Answer(old(conversationContext), userInput, generate, extract, parse,
                                       search, gifPick, termPick, fallbackGifPick);
        && reply == Replied(result.response, result.detectedEmotion, result.emotionIntensity, result.oppositeEmotion,
                            gifUrl, result.gifKeywords, result.conversationTone, result.context)
        && conversationContext == NextContext(old(conversationContext), userInput, result.response)
        && records == old(records) + [EmotionRecord(userInput, result.detectedEmotion, result.emotionIntensity,
                                                    result.oppositeEmotion, gifUrl, "Gemini AI: " + result.conversationTone)]
        && conversationAi.conversationHistory ==
             KeepLast(old(conversationAi.conversationHistory)
                      + [Exchange(userInput, result.response, result.detectedEmotion, "now")], HistoryLimit)
    {
      if body.None? || "message" !in body.value {
        return BadRequest("No message provided");
      }
      var userInput := Strip(body.value["message"], IsPySpace);
      if userInput == [] {
        return BadRequest("Empty message provided");
      }
      assert ValidateRequest(body) == Accepted(userInput);

      var context := conversationContext;
      var aiResult := conversationAi.AnalyzeEmotionAndRespond(userInput, context, generate, extract, parse);
      var keyword := GetContextualGifSearch(aiResult.detectedEmotion, aiResult.gifKeywords, aiResult.context);
      var gifUrl := SearchContextualGif(keyword, aiResult.detectedEmotion, search, gifPick, termPick, fallbackGifPick);
      assert (aiResult, gifUrl) == Answer(context, userInput, generate, extract, parse, search, gifPick, termPick, fallbackGifPick);

      context := RollContext(context, userInput, aiResult.response);
      NextContextAlternates(conversationContext, userInput, aiResult.response);
      conversationContext := context;

      records := records + [EmotionRecord(userInput, aiResult.detectedEmotion, aiResult.emotionIntensity,
                                          aiResult.oppositeEmotion, gifUrl, "Gemini AI: " + aiResult.conversationTone)];

      AppendEvictsOldest(conversationAi.conversationHistory,
                         Exchange(userInput, aiResult.response, aiResult.detectedEmotion, "now"), HistoryLimit);
      conversationAi.SaveConversationContext(userInput, aiResult.response, aiResult);

      reply := Replied(aiResult.response, aiResult.detectedEmotion, aiResult.emotionIntensity, aiResult.oppositeEmotion,
                       gifUrl, aiResult.gifKeywords, aiResult.conversationTone, aiResult.context);
    }
  }
}
