# MoodMorph core in Dafny

MoodMorph is a small web app. A user types how they feel. The server classifies the
emotion, picks an "opposite" target emotion, answers in a friendly tone, and shows a
GIF meant to lift the mood. This project models the table-driven decision logic behind
that, and proves properties of it. One Dafny module models each source file.

- `EmotionAnalyzer` (`emotion_analyzer.py`), the keyword classifier:
  - text normalisation;
  - per-emotion keyword scoring, 2 for a space-delimited hit and 1 for a bare substring;
  - the first-maximum verdict, with the polarity fallback for `neutral`;
  - the opposite-emotion and search-term tables.
- `GeminiConversation` (`gemini_conversation.py`), the helpers around the language model:
  - the six-turn context window with role mapping;
  - the reply and fallback decision;
  - the client's own case-insensitive opposite table;
  - the priority-keyword choice of a GIF search term;
  - the client object's ten-entry FIFO history.
- `TherapeuticTools` (`therapeutic_tools.py`): the content pools, and the selectors that
  pick a chat template, a transition clause, an encouraging message, a casual suggestion
  and a therapeutic tool.
- `GiphyService` (`giphy_service.py`), the GIF search:
  - the term tables;
  - the try-each-term fetch loop with early exit;
  - the layered fallback URLs.
- `Routes` (`routes.py`), the `/api/chat` handler:
  - request validation;
  - the session's rolling ten-entry context;
  - the stored record;
  - the call that saves the exchange in the client's history.
- `App` (`static/js/app.js`), the page controller:
  - relative time;
  - sentiment labels, and the sentiment bar's colour and width;
  - capitalisation;
  - the character counter and analyse-button rule;
  - the input guards and state changes of `analyzeEmotion` and `displayResults`.

Four shared modules support them:

| module | provides |
|---|---|
| `Wrappers` | `Option` |
| `Strings` | ASCII case mapping, whitespace stripping (Python's and JavaScript's whitespace sets), substring search, decimal rendering |
| `Window` | the "last n items" slice `items[-n:]` |
| `Choice` | `random.choice` as an index supplied by the caller |

Remote calls are parameters:

| call | modelled as |
|---|---|
| free-text and structured LM calls | functions to `LmCall` (an answer text, or an exception) |
| `json.loads` | a function to `Option` |
| a GIPHY search | a function from term and result limit to a reply |
| the browser's `fetch` in `analyzeEmotion` | an outcome parameter |
| TextBlob polarity | a `real` parameter (`None` when computing it raised) |

Every random pick is a `nat` index, so every element of a pool is a possible choice and
nothing outside it is.

The source is imperative in several places, and the model keeps that form there:

- `_detect_emotion_keywords`, `_fetch_from_giphy` and the context loop of
  `analyze_emotion_and_respond` are methods with loops. Each is proved equal to a
  specification function whose properties are proved separately.
- The LM client's history is a field of the class `GeminiConversationAI`, updated in place.
- The session context and the record table are fields of `ChatServer`.
- The page state is a set of fields of `MoodMorphApp`.

Two fallback paths, as the code has them:

- `get_emotion_appropriate_gif` makes a single search for one randomly chosen term, then
  falls back to the `'positive'` URL. The retry over a term list exists only in
  `_fetch_from_giphy`, reached from `get_opposite_emotion_gif`.
- For an unknown emotion, `get_tool_for_emotion` picks randomly among all three
  breathing exercises. The fixed `'Simple Breathing'` tool appears only on the exception
  path, which these tables never reach.

## Model

| member | source | states |
|---|---|---|
| Strings.Lower | emotion_analyzer.py:103 | Length is kept and each character is mapped by the ASCII lower-case map. |
| Strings.LowerIdempotent | emotion_analyzer.py:103 | A lowered string has no upper-case letter, and lowering twice equals lowering once. |
| Strings.Strip | routes.py:27 | `str.strip()` with Python's whitespace set, and `trim()` with JavaScript's: leading whitespace dropped, then trailing. The result is never longer than the input; its shape is stated by `StripShape`. |
| Strings.StripShape | routes.py:27 | `str.strip()` (and `trim()` with JavaScript's whitespace set): the result has no leading or trailing whitespace. It is the input with a whitespace-only prefix and a whitespace-only suffix removed. It is empty exactly when the input is all whitespace. |
| Strings.Contains | emotion_analyzer.py:115 | Python's `in` on strings: true exactly when the needle occurs at some position of the haystack. |
| Strings.NatToString | static/js/app.js:317-319 | `${n}` is a non-empty string of decimal digits without a leading zero (for n > 0). |
| Strings.NatToStringRoundTrip | static/js/app.js:317-319 | Reading the rendered digits back gives n. |
| Window.KeepLast | gemini_conversation.py:232-233 | `items[-n:]`: for n > 0 the result is the suffix of length min(\|s\|, n); for n = 0 it is the whole list, as `items[-0:]` is in Python. |
| Window.AppendEvictsOldest | gemini_conversation.py:224-233 | On a window of at most n items, append-then-truncate is FIFO. Below n it is a plain append. At n only the oldest item goes. The new item is last and the bound holds. |
| Choice.Choose | therapeutic_tools.py:279 | `random.choice`: the result is an element of the pool, and any index below the pool size selects that element. |
| EmotionAnalyzer.CollapseSpaces | emotion_analyzer.py:105 | `re.sub(r'\s+', ' ', s)`: each maximal whitespace run becomes one space. Its properties are stated by `CollapseSpacesShape` and `CollapseSpacesWords`. |
| EmotionAnalyzer.CollapseSpacesShape | emotion_analyzer.py:105 | `re.sub(r'\s+', ' ', …)`: the output has only plain spaces and never two in a row. It is empty exactly when the input is empty, starts with whitespace exactly when the input does, and adds no upper-case letter. |
| EmotionAnalyzer.CollapseSpacesWords | emotion_analyzer.py:105 | `re.sub(r'\s+', ' ', s)` is the words of `s` (as `str.split()` gives them) joined by single spaces, with one space for leading and one for trailing whitespace; whitespace-only input gives one space. |
| EmotionAnalyzer.Split | emotion_analyzer.py:105 | Python's `str.split()` with no separator: the maximal non-whitespace runs, in order. It is the reference against which the collapse and normalisation are stated. |
| EmotionAnalyzer.JoinWithSpaces | emotion_analyzer.py:105 | `' '.join(words)`: the words separated by single spaces. Its ends are stated by `JoinedEnds`. |
| EmotionAnalyzer.SplitGivesWords | emotion_analyzer.py:105 | Every piece `str.split()` returns is non-empty and free of whitespace. |
| EmotionAnalyzer.StripCollapsedWords | emotion_analyzer.py:105 | `re.sub(r'\s+', ' ', s).strip()` equals `' '.join(s.split())`. |
| EmotionAnalyzer.Preprocess | emotion_analyzer.py:100-106 | The normalised text has no upper-case letter, no leading or trailing whitespace, and no two adjacent whitespace characters. |
| EmotionAnalyzer.PreprocessJoinsWords | emotion_analyzer.py:100-106 | `_preprocess_text(t)` equals `' '.join(t.lower().split())`: the lower-cased words, single-spaced. |
| EmotionAnalyzer.CollapseFixpoint | emotion_analyzer.py:105 | Collapsing an already collapsed string changes nothing. |
| EmotionAnalyzer.NormalizedFixpoint | emotion_analyzer.py:100-106 | Normalising an already normalised string changes nothing. |
| EmotionAnalyzer.PreprocessIdempotent | emotion_analyzer.py:100-106 | Normalising twice equals normalising once. |
| EmotionAnalyzer.KeywordHit | emotion_analyzer.py:115-120 | A keyword adds 2 exactly when it occurs space-delimited in `" "+text+" "`, 1 exactly when it occurs only as a substring, and 0 exactly when it is absent. |
| EmotionAnalyzer.KeywordScore | emotion_analyzer.py:113-121 | An emotion's score lies in [0, 2·\|keywords\|]. |
| EmotionAnalyzer.ScoreCoversKeyword | emotion_analyzer.py:114-120 | Every keyword's contribution is included in its emotion's score. |
| EmotionAnalyzer.Scores | emotion_analyzer.py:110-121 | The score table has one entry per emotion, in declaration order, each within the bound. |
| EmotionAnalyzer.DelimitedKeywordScoresTwo | emotion_analyzer.py:117-118 | A keyword found space-delimited gives its emotion a score of at least 2. |
| EmotionAnalyzer.FirstMax | emotion_analyzer.py:125 | `max(d, key=d.get)` over the scores returns a maximal entry with no earlier entry equal to it, so ties go to the first-declared emotion. |
| EmotionAnalyzer.KeywordEmotion | emotion_analyzer.py:124-127 | The result is `'neutral'` exactly when every emotion scores 0. Otherwise it is the table emotion at the first maximal score. |
| EmotionAnalyzer.ScoreKeywords | emotion_analyzer.py:113-121 | The inner accumulation loop computes exactly the emotion's score. |
| EmotionAnalyzer.DetectEmotionKeywords | emotion_analyzer.py:108-127 | The two nested loops and the max return exactly the keyword verdict above. |
| EmotionAnalyzer.ResolveEmotion | emotion_analyzer.py:73-77 | A non-neutral keyword verdict is kept. A neutral one becomes `'negative'` exactly when polarity < -0.1, `'positive'` exactly when polarity > 0.1, and otherwise stays `'neutral'`. |
| EmotionAnalyzer.OppositeOf | emotion_analyzer.py:80 | The table lookup defaults to `'positive'`, and every result is a key of the search-term table. |
| EmotionAnalyzer.GetGiphySearchTerms | emotion_analyzer.py:129-131 | The lookup defaults to `['happy','positive','good vibes']` and never returns an empty list. |
| EmotionAnalyzer.AnalyzerOppositeHasTerms | emotion_analyzer.py:129-131 | For every opposite the analyser produces, the search-term lookup hits the table rather than the default. |
| EmotionAnalyzer.Abs | emotion_analyzer.py:88 | `abs` is non-negative and equals x or -x. |
| EmotionAnalyzer.Analyze | emotion_analyzer.py:51-98 | The emotion is the resolved keyword verdict on the normalised text. The opposite is its table lookup, and confidence = \|sentiment_score\|. The fault path returns neutral/0.0/positive/0.0. |
| GeminiConversation.RoleOf | gemini_conversation.py:81 | Sender `'user'` maps to role `'user'`, and every other sender to `'model'`. |
| GeminiConversation.ContextFor | gemini_conversation.py:78-85 | The context has min(6, \|ctx\|)+1 messages. They are the last turns, role-mapped, followed by the new message with role `'user'`. |
| GeminiConversation.BuildContext | gemini_conversation.py:78-85 | The append loop builds exactly that context. |
| GeminiConversation.OppositeEmotion | gemini_conversation.py:164-186 | The lookup is on the lower-cased label, defaults to `'positive'`, and is never empty. |
| GeminiConversation.OppositeEmotionIgnoresCase | gemini_conversation.py:186 | A label and its lower-case form get the same opposite. |
| GeminiConversation.OppositeTablesDisagreeOnSad | gemini_conversation.py:167 | The two opposite tables are separate and differ: the classifier maps `sad` to `happy`, the LM client to `joyful`. |
| GeminiConversation.PriorityKeywords | gemini_conversation.py:202-213 | The if/elif chain: each of the five emotion groups has its five priority keywords, and every other emotion has none (`None`, so all keywords are candidates). |
| GeminiConversation.Prioritized | gemini_conversation.py:202-211 | A value occurs in the filtered list exactly when it is a keyword in the priority set; the list is empty exactly when no keyword is. |
| GeminiConversation.PrioritizedKeepsOrder | gemini_conversation.py:202-211 | The filtered list is a subsequence of the keywords, in their order, holding each priority keyword as often as the keywords do and nothing else. |
| GeminiConversation.PrioritizedHead | gemini_conversation.py:216 | The filter's first element is the earliest keyword in the priority set. |
| GeminiConversation.GetContextualGifSearch | gemini_conversation.py:200-216 | The chosen term is an element of the keywords, or `'uplifting'` when there are none. |
| GeminiConversation.ContextualGifSearchPicksEarliest | gemini_conversation.py:202-216 | The term is the earliest keyword in the emotion's priority set. Failing that it is `keywords[0]`. For emotions outside the five groups it is `keywords[0]`. |
| GeminiConversation.Respond | gemini_conversation.py:87-162 | A raised call, or an unparsable non-empty analysis, gives the fixed fallback. An empty reply text gives the fixed sentence. An empty analysis gives the neutral/0.5 defaults. The opposite is always the client table's lookup of the detected emotion, and the reply text is never empty. |
| GeminiConversation.FallbackOppositeIsConsistent | gemini_conversation.py:152-162 | The fallback's `'positive'` opposite agrees with the client table's default for `neutral`. |
| GeminiConversation.GeminiConversationAI.constructor | gemini_conversation.py:34 | The history starts empty. |
| GeminiConversation.GeminiConversationAI.AnalyzeEmotionAndRespond | gemini_conversation.py:65-162 | The imperative body returns exactly the reply decision applied to the two call outcomes on the built context. |
| GeminiConversation.GeminiConversationAI.SaveConversationContext | gemini_conversation.py:222-233 | One entry carrying the detected emotion is appended and is last. Below ten the old entries stay as a prefix. At ten only the oldest is dropped. The history never exceeds ten. |
| TherapeuticTools.PoolsNonEmpty | therapeutic_tools.py:76-264 | Every pool a selector draws from is non-empty. |
| TherapeuticTools.PromptsOfKind | therapeutic_tools.py:288 | The list comprehension keeps exactly the prompts of the given type. |
| TherapeuticTools.ChooseOrFirst | therapeutic_tools.py:292 | The result is a pick from the filtered prompts, or the first prompt when the filter is empty. |
| TherapeuticTools.GroundingPromptIsUnique | therapeutic_tools.py:53-74 | The only grounding-typed prompt is the first one. |
| TherapeuticTools.GetToolForEmotion | therapeutic_tools.py:276-306 | An unknown emotion gets a breathing tool with an exercise from the pool. For a known emotion, the type is `'breathing'` exactly when the chosen category is `breathing_exercise`. `grounding` gives the single grounding prompt. Any other category gives a mindfulness prompt. |
| TherapeuticTools.MindfulnessOnlyEmotions | therapeutic_tools.py:76-125 | sad, lonely, tired and confused always get a mindfulness tool. |
| TherapeuticTools.GetEncouragingMessage | therapeutic_tools.py:316-331 | The result is one of the emotion's messages for the six configured emotions. Otherwise it is exactly the generic sentence naming the opposite. |
| TherapeuticTools.ChatPool | therapeutic_tools.py:359-364 | The pool is the emotion's own, the `sad` pool for `'negative'`, and otherwise the `neutral` pool. It is never empty. |
| TherapeuticTools.GenerateChatResponse | therapeutic_tools.py:357-379 | For the six negative emotions the reply is a template plus a transition phrase. For every other label it is a bare template. |
| TherapeuticTools.GetCasualSuggestion | therapeutic_tools.py:395-399 | The result is `Some` exactly for the six configured emotions, holding an element of that pool, and `None` otherwise. |
| GiphyService.PositiveFallbackPresent | giphy_service.py:20-31 | The `'positive'` key exists and holds the URL used as the literal default, and no fallback URL is empty. |
| GiphyService.GetSearchTerms | giphy_service.py:106-119 | The lookup defaults to `['happy','positive','good vibes']` and is never empty. |
| GiphyService.FirstHit | giphy_service.py:70-94 | The result is the pick from the first term whose reply is a 200 with non-empty data, with every earlier term moving on. It is `Failed` when the first stopping reply lacks `data`, and no GIF exactly when every term moves on. |
| GiphyService.FetchFromGiphy | giphy_service.py:70-94 | The loop returns exactly that result after at most \|terms\| requests, and after all of them when nothing is found. |
| GiphyService.FallbackFor | giphy_service.py:54 | The result is the emotion's own fallback, otherwise the `'positive'` URL, and is never empty. |
| GiphyService.GetOppositeEmotionGif | giphy_service.py:43-58 | A non-empty fetched URL is returned. Otherwise the result is the fallback, which it always is when no term hits. The result is never empty. |
| GiphyService.EmotionGifTerms | giphy_service.py:195 | The lookup is on the lower-cased emotion, defaults to `['uplifting','positive','smile']`, and is never empty. |
| GiphyService.GetEmotionAppropriateGif | giphy_service.py:173-219 | The searched term is a member of the emotion's list. A hit gives one of its GIFs. Anything else gives the `'positive'` URL. |
| GiphyService.EmotionAppropriateGifIgnoresCase | giphy_service.py:195 | The emotion's case does not change the result. |
| GiphyService.SearchContextualGif | giphy_service.py:132-161 | A hit on the keyword gives one of its GIFs. Otherwise the result is the emotion-based search. |
| GiphyService.UnreachableGiphyGivesPositiveGif | giphy_service.py:145-219 | With every request failing, the contextual search returns the `'positive'` URL. |
| GiphyService.AnalyzerOppositesHaveGifs | giphy_service.py:20-31 | Every opposite the keyword analyser produces has its own term list and its own fallback URL. |
| Routes.ValidateRequest | routes.py:23-29 | A missing body or `message` key gives "No message provided". A message empty after strip gives "Empty message provided". Otherwise the stripped, non-empty message is accepted. |
| Routes.NextContext | routes.py:50-63 | The context ends with the user entry then the bot entry. It is the old context plus the pair when that fits in ten, and otherwise only the oldest entries are dropped to leave ten. |
| Routes.NextContextAlternates | routes.py:50-65 | An alternating user/bot context stays alternating after an exchange. |
| Routes.RollContext | routes.py:50-63 | The two appends and the `[-10:]` slice compute exactly the next context. |
| Routes.ChatServer.constructor | routes.py:32 | The session context starts empty and alternating, and the record table starts empty. |
| Routes.ChatServer.Chat | routes.py:18-80 | A rejected request returns the 400 text and changes nothing. Otherwise the LM sees the context as it was before this exchange. The session context rolls and keeps the user/bot alternation. The record stores the intensity as `sentiment_score` and `"Gemini AI: " + tone` as the tool. The client history gets the exchange. |
| App.CountAgo | static/js/app.js:317-319 | The template `${n} unit${n > 1 ? 's' : ''} ago`. Its shape is stated by `CountAgoShape`. |
| App.CountAgoShape | static/js/app.js:317-319 | The phrase starts with the count in decimal and ends in "s ago" exactly when the count exceeds one. |
| App.GetTimeAgo | static/js/app.js:310-321 | Any diff under 60000 ms, negative included, gives "Just now". Otherwise the phrase uses the largest unit with a non-zero floor count, with hours below 24 and minutes below 60. |
| App.GetSentimentLabel | static/js/app.js:185-191 | The five labels partition the scores at -0.5, -0.1, 0.1 and 0.5, each band half-open. |
| App.SentimentRank | static/js/app.js:185-191 | The rank is a valid position in the label list. |
| App.SentimentLabelMonotone | static/js/app.js:185-191 | A higher score never gets a lower-ranked label. |
| App.CapitalizeFirst | static/js/app.js:353-355 | Length and every character after the first are preserved. The first character is upper-cased. |
| App.CapitalizeFirstIdempotent | static/js/app.js:353-355 | Capitalising twice equals capitalising once. |
| App.CountStyleFor | static/js/app.js:63-69 | The counter is danger exactly when length > 450, warning exactly when 400 < length ≤ 450, and plain otherwise. |
| App.AnalyzeDisabled | static/js/app.js:72 | The button is enabled exactly when 1 ≤ length ≤ 500 and no analysis is running. |
| App.BarToneFor | static/js/app.js:168-180 | The bar's colour bands are half-open and cut at -0.3, -0.1, 0.1 and 0.3; each colour holds exactly on its band. |
| App.BarWidth | static/js/app.js:165-166 | The width maps polarity -1, 0 and 1 to 0, 50 and 100 percent, and stays within [0, 100] for polarity in [-1, 1]. |
| App.BarWidthMonotone | static/js/app.js:165-166 | A higher score never gives a narrower bar. |
| App.FailureMessage | static/js/app.js:110-121 | The banner shows the server's non-empty error, else "Failed to analyze emotion". For a thrown error it shows the non-empty message, else "Something went wrong. Please try again.". It is never empty. |
| App.InputError | static/js/app.js:84-94 | The empty-input error is raised exactly when the trimmed text is empty. The length error is raised exactly when it exceeds 500 characters. The request goes ahead exactly when the trimmed length is between 1 and 500. |
| App.SettledPage | static/js/app.js:96-126 | After a request that passed the guards, analysis is over and the input is untouched. The counter and button follow the input length. A success stores both labels, shows them capitalised, colours the bar and hides the banner. A failure keeps the previous labels and badges and shows a non-empty message. |
| App.MoodMorphApp.constructor | static/js/app.js:4-12 | No current emotion or opposite, and not analysing. |
| App.MoodMorphApp.UpdateCharCount | static/js/app.js:59-73 | The counter shows the length with its style, and the button follows the enable rule. No other field changes. |
| App.MoodMorphApp.ShowError | static/js/app.js:343-347 | The banner text is set and shown, and no other field changes. |
| App.MoodMorphApp.DisplayResults | static/js/app.js:129-160 | Both labels are stored for the GIF refresh and the badges show them capitalised. The sentiment bar takes the score's colour and width. No other field changes. |
| App.MoodMorphApp.AnalyzeEmotion | static/js/app.js:83-127 | A guard error only sets and shows the banner. Otherwise the whole new page state is the settled state of `SettledPage`. |
| App.MoodMorphApp.RunAnalysis | static/js/app.js:96-126 | The loading step, the reply or failure, and the `finally` block together leave exactly the settled state. |

## Left out

- Unicode is not modelled. Case mapping is ASCII: `str.lower` and `toUpperCase` act here
  on ASCII letters only. Python whitespace (`\s`, `str.split`, `str.strip`) is the six
  ASCII whitespace characters plus the separators U+001C to U+001F; JavaScript `trim()`
  is the six ASCII ones. Non-ASCII whitespace is in neither set. JavaScript `length`
  counts UTF-16 code units and the model counts characters.
- TextBlob's polarity is a foreign library computing floats. It is a `real` parameter.
  The model does not claim it lies in [-1, 1].
- The remote calls, and what they carry, are parameters (the LM calls, JSON parsing, the
  GIPHY search, the browser `fetch`):
  - the prompt texts, model names, temperatures, token limits, API keys, timeouts, and the
    `rating`/`lang` query parameters;
  - response fields other than the data list and each image's original URL.
- `validate_gif_url` makes an HTTP HEAD request and feeds no decision in the core.
- `random.choice` is an index chosen by the caller. Its distribution is not modelled.
- Logging throughout, the Flask app and routing, and the `db.session` commit are not
  modelled; the table is a sequence that only grows. Also left out: `get_suggestions`,
  `get_history`, `upload_custom_content` and the error handlers in `routes.py`.
- `models.py` (column declarations and `to_dict`) is not part of this model. Neither are
  `static/js/response.js` and `static/js/chat.js` (DOM building, `localStorage`, timers).
- The DOM parts of `app.js` are not modelled: element lookup, event binding, the loading
  indicator, the results section's visibility, the GIF refresh, the history list, the
  sentiment value text (`toFixed`), and the five-second auto-hide of the error banner.
- App.MoodMorphApp.DisplayResults: badge CSS classes, the encouraging message, the GIF
  element and the therapeutic-tool card are not modelled; only the labels, badge texts
  and sentiment bar are.
- App.BarWidth: the width uses exact reals; floating-point rounding is not modelled.
- `getTimeAgo` takes the millisecond difference as an integer; `Date` arithmetic is not
  modelled.
- `analyzeEmotion` posts to `/api/emotion`. `routes.py` defines no such route, and the
  model takes the request's outcome as a parameter whatever the endpoint.
- App.MoodMorphApp.AnalyzeEmotion: the `await` is treated as one atomic step. While a
  request is pending the page could take other events; those interleavings are not
  modelled.
- `get_breathing_exercises`, `get_mindfulness_prompts`, `get_general_suggestions` and the
  `general_suggestions` pool only hand a table back. They are not modelled.
- Unreachable exception handlers are not modelled. In `get_tool_for_emotion`,
  `generate_chat_response` and `get_casual_suggestion` every lookup is guarded and every
  pool is non-empty (`PoolsNonEmpty`), so those handlers cannot run.
- GeminiConversation.GetContextualGifSearch: the parsed reply's fields are assumed to have
  the types of the structured call's schema, so the keywords are a sequence of strings.
  A `gif_keywords` that is `null` or not a list is not modelled: for the five priority
  groups the comprehension then raises and the function returns `'positive'`. An empty
  list does not raise; it gives `'uplifting'`, which is modelled.
- Routes.ChatServer.Chat: the 500 path is not modelled. The JSON body is a map from
  string keys to string values; a non-string `message`, or a database failure, would
  raise into that path.
- GeminiConversation.Respond: the turns are well-formed. A turn's missing `sender` or
  `text` key (the `msg.get` defaults) is not modelled.
- The conversation history lives on the process-wide client and is shared by all
  sessions. The model has one session per `ChatServer`.
- The GIPHY search is a function of the term and the result limit, so two identical
  searches get identical replies. A live service may answer them differently.
- GiphyService: every item in a search result is assumed to carry
  `images.original.url`. An item without it raises `KeyError` in the source, and the
  caller then falls back to the fallback GIF; that path is not modelled.
