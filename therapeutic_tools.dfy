/**
 * `therapeutic_tools.py`: static pools of exercises, prompts, messages, chat templates and
 * suggestions, and the selectors that pick from them by emotion label. Each random pick
 * is a `pick` index chosen by the caller (see `Choose`).
 */
module TherapeuticTools {
  import opened Wrappers
  import opened Choice

  datatype BreathingExercise = BreathingExercise(
    name: string, description: string, duration: string, instructions: seq<string>)

  datatype MindfulnessPrompt = MindfulnessPrompt(title: string, description: string, kind: string)

  datatype Exercise = Breathing(breathing: BreathingExercise) | Mindfulness(prompt: MindfulnessPrompt)

  /** The `{'name', 'type', 'exercise'}` dict that `get_tool_for_emotion` returns. */
  datatype Tool = Tool(name: string, kind: string, exercise: Exercise)

  /** An `emotion_tools` entry: tool categories and encouraging messages. */
  datatype EmotionTool = EmotionTool(tools: seq<string>, messages: seq<string>)

  // ---------------------------------------------------------------------------
  // Pools (TherapeuticTools.__init__)
  // ---------------------------------------------------------------------------

  const BreathingExercises: seq<BreathingExercise> := [
    BreathingExercise(
      "4-7-8 Breathing",
      "Inhale for 4 counts, hold for 7, exhale for 8. Repeat 4 times.",
      "2-3 minutes",
      [ "Sit comfortably with your back straight",
        "Place your tongue against the roof of your mouth behind your teeth",
        "Exhale completely through your mouth",
        "Close your mouth and inhale through nose for 4 counts",
        "Hold your breath for 7 counts",
        "Exhale through mouth for 8 counts",
        "Repeat this cycle 4 times" ]),
    BreathingExercise(
      "Box Breathing",
      "Inhale, hold, exhale, hold - each for 4 counts.",
      "3-5 minutes",
      [ "Sit or lie down comfortably",
        "Inhale slowly through your nose for 4 counts",
        "Hold your breath for 4 counts",
        "Exhale slowly through your mouth for 4 counts",
        "Hold empty for 4 counts",
        "Repeat for 10-15 cycles" ]),
    BreathingExercise(
      "Belly Breathing",
      "Deep diaphragmatic breathing to activate relaxation response.",
      "5-10 minutes",
      [ "Lie down or sit comfortably",
        "Place one hand on chest, one on belly",
        "Breathe slowly through your nose",
        "Feel your belly rise more than your chest",
        "Exhale slowly through pursed lips",
        "Continue for 5-10 minutes" ])
  ]

  const MindfulnessPrompts: seq<MindfulnessPrompt> := [
    MindfulnessPrompt(
      "5-4-3-2-1 Grounding",
      "Notice 5 things you see, 4 things you can touch, 3 things you hear, 2 things you smell, 1 thing you taste.",
      "grounding"),
    MindfulnessPrompt(
      "Body Scan",
      "Starting from your toes, slowly notice each part of your body and any sensations.",
      "awareness"),
    MindfulnessPrompt(
      "Loving Kindness",
      "Send thoughts of love and kindness to yourself, then to someone you love, then to someone neutral, and finally to someone difficult.",
      "compassion"),
    MindfulnessPrompt(
      "Present Moment",
      "Focus entirely on what you're doing right now. Notice every detail of the current moment.",
      "presence")
  ]

  const EmotionTools: map<string, EmotionTool> := map[
    "sad" := EmotionTool(
      ["gratitude_practice", "movement", "social_connection"],
      [ "It's okay to feel sad. This feeling is temporary and will pass.",
        "Your sadness is valid. Let's find something to lift your spirits.",
        "Even in difficult moments, there are small things to be grateful for." ]),
    "angry" := EmotionTool(
      ["breathing_exercise", "physical_release", "perspective_shift"],
      [ "Your anger is telling you something important. Let's channel it constructively.",
        "Take a deep breath. This feeling will pass, and you can handle this.",
        "It's natural to feel angry sometimes. Let's find a healthy way to process it." ]),
    "anxious" := EmotionTool(
      ["breathing_exercise", "grounding", "reassurance"],
      [ "Anxiety is uncomfortable but not dangerous. You are safe in this moment.",
        "Focus on what you can control right now. You've overcome challenges before.",
        "This anxious feeling will pass. Let's ground yourself in the present moment." ]),
    "lonely" := EmotionTool(
      ["social_connection", "self_compassion", "meaningful_activity"],
      [ "Feeling lonely is human. You are worthy of connection and love.",
        "Even when alone, you are not forgotten. Someone cares about you.",
        "This loneliness is temporary. You have the strength to reach out when ready." ]),
    "tired" := EmotionTool(
      ["rest_planning", "energy_conservation", "gentle_movement"],
      [ "Your body is asking for rest. It's okay to slow down.",
        "Tiredness is a sign to be gentle with yourself today.",
        "Rest is productive. You deserve to recharge." ]),
    "confused" := EmotionTool(
      ["clarity_exercise", "step_by_step", "perspective_gathering"],
      [ "Confusion is the beginning of understanding. You'll find clarity.",
        "It's okay not to have all the answers right now.",
        "One step at a time. You don't need to figure everything out today." ])
  ]

  const SadResponses: seq<string> := [
    "Oh, I can really feel that heaviness in what you're sharing. Life can be so tough sometimes, can't it? I'm right here with you through this.",
    "That sounds incredibly hard, and I'm so sorry you're going through this right now. You know what though? You're not alone in feeling this way.",
    "Ugh, those sad feelings can just weigh everything down. I wish I could give you the biggest hug right now. You're being so brave by reaching out.",
    "I hear you, really truly hear you. Sometimes the world just feels too much, doesn't it? But you're here, you're talking about it, and that takes real courage.",
    "Oh sweetie, that sounds so painful. I know it probably feels like this sadness will never lift, but I promise you it will. You've gotten through hard days before."
  ]

  const AngryResponses: seq<string> := [
    "Whoa, I can absolutely feel that fire in your words! That must be SO frustrating. Sometimes things just push us past our limit, you know?",
    "Oh man, that would make me furious too! Your anger totally makes sense - when we care about something and it goes wrong, of course we get heated.",
    "I get it, I really do. That burning feeling when everything seems to be going sideways - it's like your whole body is just ready to explode, right?",
    "Ugh, that sounds maddening! You know what though? That anger is telling us something important - it means you give a damn, and that's actually beautiful.",
    "I'm feeling that frustration with you! Sometimes the world just doesn't cooperate with what we need, does it? But we'll figure this out together."
  ]

  const AnxiousResponses: seq<string> := [
    "Oh honey, I can practically feel those butterflies racing around in your stomach. Anxiety is just the worst, isn't it? But you're going to be okay, I promise.",
    "That anxious spiral is so real - when your mind just won't stop racing and everything feels like it could go wrong. I've been there, and you're not alone.",
    "Oof, anxiety brain is so mean sometimes! It loves to whisper all these scary 'what ifs' that probably won't even happen. Take a deep breath with me?",
    "I can sense that worried energy from here. Your mind is trying to protect you by thinking of every possible problem, but that's exhausting! Let's slow it down together.",
    "That jittery, can't-sit-still feeling is so uncomfortable. I know it feels huge right now, but remember - you've survived 100% of your anxious moments so far."
  ]

  const LonelyResponses: seq<string> := [
    "Oh, that ache of loneliness is so real and so hard. Even when there are people around, sometimes we can feel like we're on an island, you know?",
    "Ugh, loneliness hits different, doesn't it? Like this hollow feeling that just sits in your chest. I'm here with you right now though, truly.",
    "That disconnected feeling is so rough. Sometimes even in a crowded room we can feel like no one really sees us. But I see you, and you matter.",
    "I know that empty feeling where it seems like everyone else has their people but you're just... floating. You're not as alone as it feels, I promise.",
    "Oh sweetie, that loneliness can feel so heavy and endless. But reaching out to me right now? That's you fighting against it, and I'm so proud of you."
  ]

  const TiredResponses: seq<string> := [
    "Oh honey, you sound absolutely drained. Sometimes tired isn't just sleepy - it's like your soul needs a nap, you know?",
    "I can hear that bone-deep exhaustion in what you're saying. When everything feels like it takes twice the energy it should... ugh, that's so hard.",
    "That kind of tired where even simple things feel overwhelming? I totally get that. You've been running on empty for too long, haven't you?",
    "It sounds like you've been carrying the world on your shoulders. No wonder you're exhausted! You need and deserve some real rest.",
    "That weary feeling when even breathing feels like work... I hear you. Sometimes our bodies and hearts are just begging us to slow down."
  ]

  const ConfusedResponses: seq<string> := [
    "Ugh, that foggy, scattered feeling when nothing makes sense is so frustrating! Like trying to solve a puzzle with half the pieces missing.",
    "I can feel that mental spinning from here - when your brain just can't seem to land on anything solid. It's like everything is swirling around, right?",
    "That lost, 'which way is up' feeling is so disorienting. Sometimes life throws us curveballs and we just need time to find our footing again.",
    "Oh, the overwhelm of not knowing which way to turn! Your mind is probably going a million miles an hour trying to figure it all out.",
    "That unclear, muddy feeling where everything seems complicated and nothing feels certain - I've been there, and it's exhausting for your brain."
  ]

  const PositiveResponses: seq<string> := [
    "Oh my gosh, I can feel the sunshine in your words! It's so beautiful when life feels light and good like this.",
    "Your happiness is absolutely contagious right now! I'm literally smiling just reading what you shared. Life's treating you well!",
    "I LOVE this energy! There's something so wonderful about those moments when everything just feels right with the world.",
    "This is making my whole day brighter! It's gorgeous when we can feel grateful and joyful about where we are.",
    "Your good vibes are radiating through the screen! These are the moments that make all the tough times worth it, aren't they?"
  ]

  const NeutralResponses: seq<string> := [
    "Hey there! Sometimes it's nice to just check in without any big feelings, you know? Just existing in the moment.",
    "I love that you reached out just to share what's going on. Sometimes the ordinary moments need acknowledging too.",
    "Thanks for letting me into your day! Even when things feel pretty neutral, it's good to touch base and just be present.",
    "I'm so glad you're here. Sometimes we don't need to feel anything dramatic - just being and sharing is enough.",
    "It's really nice when we can just chat without any heavy stuff. How's your world treating you today?"
  ]

  /** The chat response templates, keyed by emotion. */
  const ChatResponses: map<string, seq<string>> := map[
    "sad" := SadResponses,
    "angry" := AngryResponses,
    "anxious" := AnxiousResponses,
    "lonely" := LonelyResponses,
    "tired" := TiredResponses,
    "confused" := ConfusedResponses,
    "positive" := PositiveResponses,
    "neutral" := NeutralResponses
  ]

  /** The emotions whose chat response gets a transition clause appended. */
  const TransitionEmotions: set<string> := {"sad", "angry", "anxious", "lonely", "tired", "confused"}

  const TransitionPhrases: seq<string> := [
    " Hold on, let me find something that might help lift your spirits.",
    " Wait, I've got just the thing that might make you smile.",
    " Okay, here's something that always helps me when I feel like this.",
    " You know what? I have something perfect for this feeling."
  ]

  const CasualSuggestions: map<string, seq<string>> := map[
    "sad" := [
      "You know what always works for me? Put on that one song that never fails to make you smile - even if you have to fake it at first, sometimes your heart catches up.",
      "Here's a weird one that actually helps: do something tiny and kind for someone else. Like, text a friend a compliment or leave a nice review somewhere. It shifts something inside.",
      "This might sound too simple, but go sit outside for just 5 minutes. Even if it's cold or whatever - sometimes our souls just need sky and air.",
      "What if you called that one person who always makes you laugh? You know, the one who has the ridiculous stories? Sometimes we need to borrow some joy."
    ],
    "angry" := [
      "When you're ready, maybe try going for a quick walk or doing some jumping jacks - sometimes we need to move that energy through our body.",
      "I know it sounds simple, but taking some deep breaths can actually help reset your nervous system when you're heated.",
      "Maybe write down exactly what's bothering you - sometimes getting it out of our head and onto paper helps us see it differently.",
      "If you can, try to do something physical - even just stretching can help release some of that tension."
    ],
    "anxious" := [
      "Try this: name 5 things you can see, 4 things you can touch, 3 things you can hear. It helps bring you back to the present moment.",
      "When anxiety hits, sometimes our breathing gets shallow. Try breathing in for 4 counts, holding for 4, then out for 4.",
      "Anxiety loves to focus on 'what if' scenarios. What if you asked yourself 'what is' happening right now instead?",
      "Sometimes a warm drink and a few minutes of just being still can help calm an anxious mind."
    ],
    "lonely" := [
      "Even if it feels hard, maybe reach out to one person today - even just a simple text to let them know you're thinking of them.",
      "Sometimes when we feel disconnected, doing something creative or meaningful can help us feel more like ourselves.",
      "You could try going somewhere with other people around - even if you don't talk to anyone, just being around others can help.",
      "What if you wrote yourself a kind note? Sometimes we need to be our own friend first."
    ],
    "tired" := [
      "It might be time to give yourself permission to rest without feeling guilty about it. Your body is asking for what it needs.",
      "Sometimes 'tired' means we need to say no to a few things. What could you take off your plate this week?",
      "Try doing one small thing that usually brings you joy - sometimes we're tired because we've forgotten to nourish ourselves.",
      "Maybe tonight you could go to bed 30 minutes earlier than usual. Small changes can make a big difference."
    ],
    "confused" := [
      "When everything feels unclear, sometimes it helps to write down what you DO know, even if it's just small things.",
      "What if you talked through your thoughts with someone you trust? Sometimes clarity comes through conversation.",
      "Maybe take a step back from trying to figure it all out right now. Sometimes solutions come when we're not forcing them.",
      "Try asking yourself: what would feel good or right in this moment, even if you can't see the big picture?"
    ]
  ]

  // ---------------------------------------------------------------------------
  // Selection
  // ---------------------------------------------------------------------------

  /** Every pool a selector draws from is non-empty, so no pick can fail. */
  lemma PoolsNonEmpty()
    ensures |BreathingExercises| > 0 && |MindfulnessPrompts| > 0 && |TransitionPhrases| > 0
    ensures forall e :: e in EmotionTools ==> |EmotionTools[e].tools| > 0 && |EmotionTools[e].messages| > 0
    ensures forall e :: e in ChatResponses ==> |ChatResponses[e]| > 0
    ensures forall e :: e in CasualSuggestions ==> |CasualSuggestions[e]| > 0
  {
  }

  /** `[p for p in prompts if p['type'] == kind]`. */
  function PromptsOfKind(prompts: seq<MindfulnessPrompt>, kind: string): (r: seq<MindfulnessPrompt>)
    ensures forall p :: p in r ==> p in prompts && p.kind == kind
    ensures forall p :: p in prompts && p.kind == kind ==> p in r
    decreases |prompts|
  {
    if prompts == [] then []
    else
      var rest := PromptsOfKind(prompts[1..], kind);
      assert forall p :: p in prompts ==> p == prompts[0] || p in prompts[1..];
      if prompts[0].kind == kind then [prompts[0]] + rest else rest
  }

  /** A pick from `filtered`, or the first of `all` when the filter left nothing. */
  function ChooseOrFirst<T>(filtered: seq<T>, all: seq<T>, pick: nat): (x: T)
    requires |all| > 0
    ensures filtered != [] ==> x in filtered
    ensures filtered == [] ==> x == all[0]
  {
    if filtered != [] then Choose(filtered, pick) else all[0]
  }

  /** Exactly one prompt is of the grounding kind: the first. */
  lemma GroundingPromptIsUnique()
    ensures PromptsOfKind(MindfulnessPrompts, "grounding") == [MindfulnessPrompts[0]]
  {
    var ps := MindfulnessPrompts;
    assert PromptsOfKind(ps[3..], "grounding") == [];
    assert PromptsOfKind(ps[2..], "grounding") == [];
    assert PromptsOfKind(ps[1..], "grounding") == [];
  }

  /**
   * `get_tool_for_emotion`. `toolPick` chooses the tool category, `exercisePick` the
   * exercise or prompt.
   */
  function GetToolForEmotion(emotion: string, toolPick: nat, exercisePick: nat): (t: Tool)
    ensures t.kind == "breathing" <==> t.exercise.Breathing?
    ensures t.kind == "breathing" || t.kind == "mindfulness"
    ensures t.exercise.Breathing? ==> t.name == "Breathing Exercise" && t.exercise.breathing in BreathingExercises
    ensures t.exercise.Mindfulness? ==> t.exercise.prompt in MindfulnessPrompts
    ensures emotion !in EmotionTools ==> t.kind == "breathing"
    ensures emotion in EmotionTools ==>
      var category := Choose(EmotionTools[emotion].tools, toolPick);
      && (t.kind == "breathing" <==> category == "breathing_exercise")
      && (category == "grounding" ==> t.name == "Grounding Exercise" && t.exercise == Mindfulness(MindfulnessPrompts[0]))
      && (category != "breathing_exercise" && category != "grounding" ==> t.name == "Mindfulness Practice")
  {
    if emotion in EmotionTools then
      var category := Choose(EmotionTools[emotion].tools, toolPick);
      if category == "breathing_exercise" then
        Tool("Breathing Exercise", "breathing", Breathing(Choose(BreathingExercises, exercisePick)))
      else if category == "grounding" then
        var groundingPrompts := PromptsOfKind(MindfulnessPrompts, "grounding");
        var exercise := ChooseOrFirst(groundingPrompts, MindfulnessPrompts, exercisePick);
        GroundingPromptIsUnique();
        Tool("Grounding Exercise", "mindfulness", Mindfulness(exercise))
      else
        Tool("Mindfulness Practice", "mindfulness", Mindfulness(Choose(MindfulnessPrompts, exercisePick)))
    else
      Tool("Breathing Exercise", "breathing", Breathing(Choose(BreathingExercises, exercisePick)))
  }

  /** Sad, lonely, tired and confused have no breathing category, so they always get a mindfulness tool. */
  lemma MindfulnessOnlyEmotions(emotion: string, toolPick: nat, exercisePick: nat)
    requires emotion in {"sad", "lonely", "tired", "confused"}
    ensures GetToolForEmotion(emotion, toolPick, exercisePick).kind == "mindfulness"
  {
    var tools := EmotionTools[emotion].tools;
    assert "breathing_exercise" !in tools;
  }

  /** The generic encouragement for emotions without a message pool. */
  function GenericEncouragement(opposite: string): string {
    "Every feeling is temporary. Let's shift towards feeling more " + opposite + "."
  }

  /** `get_encouraging_message`: one of the emotion's messages, or the generic sentence naming the opposite. */
  function GetEncouragingMessage(detected: string, opposite: string, pick: nat): (m: string)
    ensures detected in EmotionTools ==> m in EmotionTools[detected].messages
    ensures detected !in EmotionTools ==> m == GenericEncouragement(opposite)
  {
    if detected in EmotionTools then Choose(EmotionTools[detected].messages, pick)
    else GenericEncouragement(opposite)
  }

  /** The template pool for an emotion: its own, the sad pool for `'negative'`, else the neutral pool. */
  function ChatPool(detected: string): (pool: seq<string>)
    ensures detected in ChatResponses ==> pool == ChatResponses[detected]
    ensures detected == "negative" ==> pool == SadResponses
    ensures detected !in ChatResponses && detected != "negative" ==> pool == NeutralResponses
    ensures |pool| > 0
  {
    if detected in ChatResponses then ChatResponses[detected]
    else if detected == "negative" then ChatResponses["sad"]
    else ChatResponses["neutral"]
  }

  /**
   * `generate_chat_response`: a template from the emotion's pool, followed by a transition
   * clause exactly for the six negative emotions that have their own pool.
   */
  function GenerateChatResponse(
    userInput: string, detected: string, opposite: string, pick: nat, transitionPick: nat): (r: string)
    ensures detected in TransitionEmotions ==>
      exists b, t :: b in ChatPool(detected) && t in TransitionPhrases && r == b + t
    ensures detected !in TransitionEmotions ==> r in ChatPool(detected)
  {
    var base := Choose(ChatPool(detected), pick);
    if detected in TransitionEmotions then
      var t := Choose(TransitionPhrases, transitionPick);
      assert base in ChatPool(detected) && t in TransitionPhrases;
      base + t
    else base
  }

  /** `get_casual_suggestion`: a suggestion for the six configured emotions, `None` for every other label. */
  function GetCasualSuggestion(detected: string, pick: nat): (r: Option<string>)
    ensures r.Some? <==> detected in CasualSuggestions
    ensures r.Some? ==> r.value in CasualSuggestions[detected]
  {
    if detected in CasualSuggestions then Some(Choose(CasualSuggestions[detected], pick)) else None
  }
}
