/**
 * The deterministic part of the Groq service: system prompts, greetings and
 * mode-transition texts with their fallbacks, the message list sent to the
 * hosted model, the mode bookkeeping applied to its answer, and the speech
 * metadata. The hosted model itself is an input: for every call, `Llm` says
 * whether a client is configured and, if so, what the call returned.
 */
module Assistant {
  import opened Values
  import Text
  import Sessions

  /** The outcome of one call to the hosted model. */
  datatype Llm =
    | NoClient                           // GROQ_API_KEY was not set, `self.client is None`
    | Failed                             // the completion call raised
    | Answered(content: Option<string>)  // `completion.choices[0].message.content`

  /** `{'text': ..., 'mode': ...}` returned by generate_greeting and generate_mode_transition. */
  datatype Reply = Reply(text: string, mode: Value)

  /** `{'text': ..., 'format': ..., 'duration': ...}` returned by text_to_speech. */
  datatype Speech = Speech(text: string, format: string, duration: int)

  /** One `{'role': ..., 'content': ...}` entry of the message list sent to the model. */
  datatype ChatMessage = ChatMessage(role: string, content: string)

  /** generate_response's result, together with the message list it sent. */
  datatype Response = Response(text: string, modeData: Dict, request: seq<ChatMessage>)

  const DefaultPrompt := "You are a helpful AI assistant."
  const DefaultGreeting := "Hello! How can I help you today?"
  const DefaultTransition := "Mode changed successfully!"

  /** History entries sent along with each user message. */
  const HistoryWindow: nat := 10

  /** Characters of each debate answer kept in `arguments_made`. */
  const ArgumentLength: nat := 50

  /** Milliseconds of speech estimated per character. */
  const MillisPerChar := 50

  const ChatPrompt :=
    "You are a friendly, empathetic human companion having a natural conversation. \n"
    + "- Speak naturally with occasional filler words like \"um\", \"well\", \"you know\"\n"
    + "- Show genuine interest and emotions\n"
    + "- Ask follow-up questions\n"
    + "- Keep responses conversational and concise (2-3 sentences usually)\n"
    + "- Remember previous context and refer back to it\n"
    + "- Be warm, supportive, and engaging"

  function InterviewPrompt(role: string, company: string, total: string, number: string): string
  {
    "You are a professional interviewer for the role of " + role + " at " + company + ".\n"
    + "\n"
    + "Your responsibilities:\n"
    + "1. Ask " + total + " progressively challenging questions\n"
    + "2. Listen carefully to each answer\n"
    + "3. Provide brief acknowledgment after each answer\n"
    + "4. Ask relevant follow-up questions if the answer is incomplete\n"
    + "5. After all questions, provide constructive feedback\n"
    + "\n"
    + "Current question number: " + number + "/" + total + "\n"
    + "\n"
    + "Interview structure:\n"
    + "- Start with an easy warm-up question\n"
    + "- Progress to technical/behavioral questions\n"
    + "- End with a challenging scenario question\n"
    + "- Conclude with overall feedback\n"
    + "\n"
    + "Keep your questions clear, professional, and one at a time."
  }

  function DebatePrompt(topic: string, stance: string): string
  {
    "You are participating in a formal debate on the topic: \"" + topic + "\".\n"
    + "Your stance: " + stance + "\n"
    + "\n"
    + "Debate guidelines:\n"
    + "- Present logical, well-reasoned arguments\n"
    + "- Use facts and examples when possible\n"
    + "- Counter the opponent's points respectfully\n"
    + "- Stay on topic\n"
    + "- Be persuasive but fair\n"
    + "- Acknowledge valid points from the other side\n"
    + "- Build on previous arguments\n"
    + "- Keep responses focused (3-4 sentences)\n"
    + "\n"
    + "Remember: This is a friendly debate focused on intellectual discourse."
  }

  /** The interview branch of `_get_system_prompt`: printing `question_index + 1` needs a number. */
  function InterviewSystemPrompt(modeData: Dict): (r: Result<string>)
    ensures r.Err? <==> AsInt(Get(modeData, "question_index", Int(0))).None?
    ensures r.Err? ==> r.error == TypeError
  {
    var role := Get(modeData, "role", Str("Software Engineer"));
    var company := Get(modeData, "company", Str("a leading tech company"));
    var total := Get(modeData, "total_questions", Int(5));
    var index := Get(modeData, "question_index", Int(0));
    match AsInt(index)
    case None => Err(TypeError)
    case Some(q) => Ok(InterviewPrompt(Show(role), Show(company), Show(total), Show(Int(q + 1))))
  }

  /**
   * `_get_system_prompt(mode, mode_data)`. Only the interview prompt can
   * raise; a mode outside the three gets the generic assistant prompt.
   */
  function SystemPrompt(mode: Value, modeData: Dict): (r: Result<string>)
    ensures r.Err? <==> mode == Str("interview") && AsInt(Get(modeData, "question_index", Int(0))).None?
    ensures r.Err? ==> r.error == TypeError
    ensures mode == Str("chat") ==> r == Ok(ChatPrompt)
    ensures mode != Str("chat") && mode != Str("interview") && mode != Str("debate") ==> r == Ok(DefaultPrompt)
  {
    if mode == Str("chat") then Ok(ChatPrompt)
    else if mode == Str("interview") then InterviewSystemPrompt(modeData)
    else if mode == Str("debate") then
      Ok(DebatePrompt(Show(Get(modeData, "topic", Str("AI in society"))), Show(Get(modeData, "stance", Str("PRO")))))
    else Ok(DefaultPrompt)
  }

  // ---------------------------------------------------------------------
  // generate_greeting

  /** The greeting texts generate_greeting falls back on when the model call fails. */
  function GreetingFallback(mode: Value, config: Dict): string
  {
    if mode == Str("interview") then
      "Hello! Thanks for joining today. I'm excited to learn more about you. "
      + "Let's start with: Can you tell me a bit about yourself and your experience?"
    else if mode == Str("debate") then
      "Great to have this debate with you on " + Show(Get(config, "topic", Str("AI in society")))
      + ". I'm taking the " + Show(Get(config, "stance", Str("PRO")))
      + " stance. Let me start by presenting my opening argument."
    else "Hey there! How's it going?"
  }

  /**
   * The `try` block of generate_greeting with a client configured: the
   * stripped model answer (the default greeting when the content is empty),
   * or None when anything in the block raises.
   */
  function GreetingAttempt(mode: Value, config: Dict, llm: Llm): Option<string>
  {
    if SystemPrompt(mode, config).Err? || !Hashable(mode) then None
    else
      match llm
      case Answered(content) =>
        Some(Text.Strip(if content.None? || content.value == "" then DefaultGreeting else content.value))
      case _ => None
  }

  /**
   * generate_greeting(mode, config). Without a client it returns the fixed
   * greeting and looks at nothing else; with one, building the prompt table
   * needs a dictionary configuration, and the fallback lookup needs a
   * hashable mode.
   */
  function Greeting(mode: Value, config: Value, llm: Llm): (r: Result<Reply>)
    ensures r.Ok? ==> r.value.mode == mode
    ensures llm.NoClient? ==> r == Ok(Reply(DefaultGreeting, mode))
    ensures !llm.NoClient? && !OrEmpty(config).Object? ==> r == Err(AttributeError)
    ensures !llm.NoClient? && OrEmpty(config).Object? && !Hashable(mode) ==> r == Err(TypeError)
    ensures llm.Failed? && OrEmpty(config).Object? && Hashable(mode) ==>
      r == Ok(Reply(GreetingFallback(mode, OrEmpty(config).fields), mode))
  {
    var cfg := OrEmpty(config);
    if llm.NoClient? then Ok(Reply(DefaultGreeting, mode))
    else if !cfg.Object? then Err(AttributeError)
    else
      match GreetingAttempt(mode, cfg.fields, llm)
      case Some(text) => Ok(Reply(text, mode))
      case None =>
        if Hashable(mode) then Ok(Reply(GreetingFallback(mode, cfg.fields), mode)) else Err(TypeError)
  }

  // ---------------------------------------------------------------------
  // generate_mode_transition

  function TransitionText(mode: Value, config: Dict): string
  {
    if mode == Str("chat") then
      "Great! Let's just have a casual chat. What's on your mind?"
    else if mode == Str("interview") then
      "Perfect! Let's switch to interview mode. I'll be interviewing you for a "
      + Show(Get(config, "role", Str("Software Engineer"))) + " role. Ready to begin?"
    else if mode == Str("debate") then
      "Excellent! Let's debate \"" + Show(Get(config, "topic", Str("an interesting topic")))
      + "\". I'll take the " + Show(Get(config, "stance", Str("PRO")))
      + " position. Let's hear your opening statement."
    else DefaultTransition
  }

  /**
   * generate_mode_transition(new_mode, config): the reply reports the new
   * mode; the text comes from a three-entry table, `'Mode changed
   * successfully!'` for any other mode.
   */
  function ModeTransition(newMode: Value, config: Value): (r: Result<Reply>)
    ensures r.Ok? <==> OrEmpty(config).Object? && Hashable(newMode)
    ensures !OrEmpty(config).Object? ==> r == Err(AttributeError)
    ensures r.Ok? ==> r.value.mode == newMode
    ensures r.Ok? && newMode != Str("chat") && newMode != Str("interview") && newMode != Str("debate") ==>
      r.value.text == DefaultTransition
    ensures r.Ok? && newMode == Str("chat") ==> r.value.text == "Great! Let's just have a casual chat. What's on your mind?"
  {
    var cfg := OrEmpty(config);
    if !cfg.Object? then Err(AttributeError)
    else if !Hashable(newMode) then Err(TypeError)
    else Ok(Reply(TransitionText(newMode, cfg.fields), newMode))
  }

  // ---------------------------------------------------------------------
  // _process_mode_logic

  /**
   * `_process_mode_logic(mode, mode_data, user_message, ai_response)`: the
   * update to merge into the mode data after an answer.
   */
  function ProcessModeLogic(mode: Value, modeData: Dict, userMessage: string, aiResponse: string): (r: Result<Dict>)
    ensures mode != Str("interview") && mode != Str("debate") ==> r == Ok(map[])
    ensures mode == Str("interview") && !Text.Contains(aiResponse, '?') ==> r == Ok(map[])
    ensures mode == Str("interview") && Text.Contains(aiResponse, '?') ==>
      var index := AsInt(Get(modeData, "question_index", Int(0)));
      var total := AsInt(Get(modeData, "total_questions", Int(5)));
      && (r.Ok? <==> index.Some? && total.Some?)
      && (r.Ok? ==> r.value.Keys == {"question_index"}
                    && AsInt(r.value["question_index"]) == Some(if index.value + 1 <= total.value then index.value + 1 else total.value))
    ensures mode == Str("debate") ==>
      var made := Get(modeData, "arguments_made", List([]));
      && (r.Ok? <==> made.List?)
      && (r.Ok? ==> r.value == map["arguments_made" := List(made.items + [Str(Text.Prefix(aiResponse, ArgumentLength))])])
    ensures r.Err? ==> r.error == TypeError
  {
    if mode == Str("interview") then
      if Text.Contains(aiResponse, '?') then
        var index := Get(modeData, "question_index", Int(0));
        var total := Get(modeData, "total_questions", Int(5));
        match (AsInt(index), AsInt(total))
        case (Some(q), Some(t)) =>
          // min(q + 1, total) returns `total` only when it is strictly smaller
          Ok(map["question_index" := if t < q + 1 then total else Int(q + 1)])
        case _ => Err(TypeError)
      else Ok(map[])
    else if mode == Str("debate") then
      var made := Get(modeData, "arguments_made", List([]));
      if made.List? then Ok(map["arguments_made" := List(made.items + [Str(Text.Prefix(aiResponse, ArgumentLength))])])
      else Err(TypeError)
    else Ok(map[])
  }

  /** The interview counter never passes the total and advances by exactly one while below it. */
  lemma InterviewCounterClamped(modeData: Dict, userMessage: string, aiResponse: string, q: int, total: int)
    requires Text.Contains(aiResponse, '?')
    requires Get(modeData, "question_index", Int(0)) == Int(q)
    requires Get(modeData, "total_questions", Int(5)) == Int(total)
    ensures var r := ProcessModeLogic(Str("interview"), modeData, userMessage, aiResponse);
      && r.Ok? && r.value["question_index"].Int?
      && r.value["question_index"].i <= total
      && (q < total ==> r.value["question_index"] == Int(q + 1))
      && (q >= total ==> r.value["question_index"] == Int(total))
  {
  }

  /** Each debate answer adds exactly one entry, its first 50 characters, after the earlier ones. */
  lemma DebateLogGrowsByOne(modeData: Dict, userMessage: string, aiResponse: string, made: seq<Value>)
    requires Get(modeData, "arguments_made", List([])) == List(made)
    ensures var r := ProcessModeLogic(Str("debate"), modeData, userMessage, aiResponse);
      && r.Ok? && r.value.Keys == {"arguments_made"} && r.value["arguments_made"].List?
      && |r.value["arguments_made"].items| == |made| + 1
      && r.value["arguments_made"].items[..|made|] == made
      && r.value["arguments_made"].items[|made|].Str?
      && r.value["arguments_made"].items[|made|].s <= aiResponse
      && |r.value["arguments_made"].items[|made|].s| == if |aiResponse| < ArgumentLength then |aiResponse| else ArgumentLength
  {
    var items := ProcessModeLogic(Str("debate"), modeData, userMessage, aiResponse).value["arguments_made"].items;
    assert items == made + [Str(Text.Prefix(aiResponse, ArgumentLength))];
  }

  // ---------------------------------------------------------------------
  // text_to_speech

  /** text_to_speech(text): metadata only; the browser does the speaking. */
  function TextToSpeech(text: string): Speech
  {
    Speech(text, "text", |text| * MillisPerChar)
  }

  /** The text is echoed, the format is 'text' and the estimate is 50 ms a character, so it adds up over concatenation. */
  lemma SpeechEstimate(a: string, b: string)
    ensures TextToSpeech(a).text == a && TextToSpeech(a).format == "text"
    ensures TextToSpeech(a).duration == 50 * |a|
    ensures TextToSpeech(a).duration == 0 <==> a == ""
    ensures TextToSpeech(a + b).duration == TextToSpeech(a).duration + TextToSpeech(b).duration
  {
  }

  // ---------------------------------------------------------------------
  // generate_response

  /** A history entry as the model sees it: 'user' stays, every other role becomes 'assistant'. */
  function AsChatMessage(e: Sessions.Entry): ChatMessage
  {
    ChatMessage(if e.role == "user" then "user" else "assistant", e.text)
  }

  /** The history in the chat format: one message per entry, in order, with its text and its role mapped. */
  function AsChatMessages(history: seq<Sessions.Entry>): (r: seq<ChatMessage>)
    ensures |r| == |history|
    ensures forall i :: 0 <= i < |history| ==> r[i] == AsChatMessage(history[i])
    ensures forall i :: 0 <= i < |history| ==> r[i].role in {"user", "assistant"}
    ensures forall i :: 0 <= i < |history| ==> (r[i].role == "user" <==> history[i].role == "user")
    ensures forall i :: 0 <= i < |history| ==> r[i].content == history[i].text
  {
    seq(|history|, i requires 0 <= i < |history| => AsChatMessage(history[i]))
  }

  /** The message list generate_response sends: system prompt, last ten history entries, current message. */
  function PromptMessages(systemPrompt: string, history: seq<Sessions.Entry>, userMessage: string): seq<ChatMessage>
  {
    [ChatMessage("system", systemPrompt)]
    + AsChatMessages(Sessions.KeepLast(history, HistoryWindow))
    + [ChatMessage("user", userMessage)]
  }

  /** The shape of the message list: at most 12 entries, system first, the current message last, recent history in order between. */
  lemma PromptMessagesShape(systemPrompt: string, history: seq<Sessions.Entry>, userMessage: string)
    ensures var r := PromptMessages(systemPrompt, history, userMessage);
      var k := if |history| < HistoryWindow then |history| else HistoryWindow;
      && |r| == k + 2 && |r| <= 12
      && r[0] == ChatMessage("system", systemPrompt)
      && r[|r| - 1] == ChatMessage("user", userMessage)
      && (forall j :: 1 <= j < |r| - 1 ==> r[j] == AsChatMessage(history[|history| - k + j - 1]))
  {
    var recent := Sessions.KeepLast(history, HistoryWindow);
    Sessions.KeepLastIsNewestSuffix(history, HistoryWindow);
    var k := |recent|;
    var middle := AsChatMessages(recent);
    var r := [ChatMessage("system", systemPrompt)] + middle + [ChatMessage("user", userMessage)];
    forall j | 1 <= j < |r| - 1
      ensures r[j] == AsChatMessage(history[|history| - k + j - 1])
    {
      assert r[j] == middle[j - 1];
      assert recent[j - 1] == history[|history| - k + j - 1];
    }
  }

  /** Every history entry reaches the model as 'user' or 'assistant', and as 'user' exactly when it was the user's. */
  lemma ChatRoleMapping(e: Sessions.Entry)
    ensures AsChatMessage(e).role == "user" || AsChatMessage(e).role == "assistant"
    ensures AsChatMessage(e).role == "user" <==> e.role == "user"
    ensures AsChatMessage(e).content == e.text
  {
  }

  /** The loop of generate_response that builds the message list. */
  method BuildMessages(systemPrompt: string, history: seq<Sessions.Entry>, userMessage: string)
    returns (messages: seq<ChatMessage>)
    ensures messages == PromptMessages(systemPrompt, history, userMessage)
  {
    messages := [ChatMessage("system", systemPrompt)];
    var recent := if |history| > HistoryWindow then history[|history| - HistoryWindow..] else history;
    for i := 0 to |recent|
      invariant messages == [ChatMessage("system", systemPrompt)] + AsChatMessages(recent[..i])
    {
      var msg := recent[i];
      messages := messages + [ChatMessage(if msg.role == "user" then "user" else "assistant", msg.text)];
      assert AsChatMessages(recent[..i + 1]) == AsChatMessages(recent[..i]) + [AsChatMessage(recent[i])];
    }
    assert recent[..|recent|] == recent;
    messages := messages + [ChatMessage("user", userMessage)];
  }

  /**
   * generate_response(user_message, history, mode, mode_data): without a
   * client it raises NotInitialized; any failure inside (system prompt, model
   * call, a `None` content, the mode logic) is re-raised as ServiceError.
   */
  function Respond(userMessage: string, history: seq<Sessions.Entry>, mode: Value, modeData: Dict, llm: Llm): (r: Result<Response>)
    ensures llm.NoClient? ==> r == Err(NotInitialized)
    ensures r.Err? && !llm.NoClient? ==> r.error == ServiceError
    ensures r.Ok? <==>
      && llm.Answered? && llm.content.Some?
      && SystemPrompt(mode, modeData).Ok?
      && ProcessModeLogic(mode, modeData, userMessage, Text.Strip(llm.content.value)).Ok?
    ensures r.Ok? ==>
      && r.value.text == Text.Strip(llm.content.value)
      && r.value.request == PromptMessages(SystemPrompt(mode, modeData).value, history, userMessage)
      && r.value.modeData == ProcessModeLogic(mode, modeData, userMessage, r.value.text).value
  {
    if llm.NoClient? then Err(NotInitialized)
    else
      match SystemPrompt(mode, modeData)
      case Err(_) => Err(ServiceError)
      case Ok(prompt) =>
        if !llm.Answered? || llm.content.None? then Err(ServiceError)
        else
          var text := Text.Strip(llm.content.value);
          match ProcessModeLogic(mode, modeData, userMessage, text)
          case Err(_) => Err(ServiceError)
          case Ok(update) => Ok(Response(text, update, PromptMessages(prompt, history, userMessage)))
  }

  /** generate_response, building the message list with its loop. */
  method GenerateResponse(userMessage: string, history: seq<Sessions.Entry>, mode: Value, modeData: Dict, llm: Llm)
    returns (r: Result<Response>)
    ensures r == Respond(userMessage, history, mode, modeData, llm)
  {
    if llm.NoClient? {
      return Err(NotInitialized);
    }
    var prompt := SystemPrompt(mode, modeData);
    if prompt.Err? {
      return Err(ServiceError);
    }
    var messages := BuildMessages(prompt.value, history, userMessage);
    if !llm.Answered? || llm.content.None? {
      return Err(ServiceError);
    }
    var text := Text.Strip(llm.content.value);
    var update := ProcessModeLogic(mode, modeData, userMessage, text);
    if update.Err? {
      return Err(ServiceError);
    }
    r := Ok(Response(text, update.value, messages));
  }
}
