/**
 * The Gemini provider (providers/gemini_provider.py): construction, parameter
 * defaulting, the conversion of a role/content message list into Gemini's chat
 * history plus a final prompt, response construction and error wrapping.
 * The `google.generativeai` SDK is an oracle (`Sdk`) that returns a value or raises.
 */
module GeminiProvider {
  import opened Wrappers
  import opened Config
  import opened Models

  const Name: string := "gemini"
  const DefaultModel: string := "gemini-pro"
  const KeyRequired: string := "Gemini API key is required"
  const GenerationFailed: string := "Gemini generation failed: "
  const ChatFailed: string := "Gemini chat completion failed: "

  /** `genai.types.GenerationConfig`. */
  datatype GenerationConfig = GenerationConfig(temperature: real, topP: real, maxOutputTokens: int)

  /** One entry of Gemini's chat history: a role ("user" or "model") and its parts. */
  datatype HistoryEntry = HistoryEntry(role: string, parts: seq<string>)

  datatype TokenCounts = TokenCounts(promptTokenCount: int, candidatesTokenCount: int, totalTokenCount: int)

  /** The vendor reply: its text, its usage metadata if it has any, and the finish/safety metadata, uninterpreted. */
  datatype Reply = Reply(text: string, usageMetadata: Option<TokenCounts>, metadata: Metadata)

  /**
   * The vendor SDK as an oracle: whether `genai.configure(api_key=…)` raises; what
   * `generate_content` (model, config, prompt) and `start_chat(history).send_message(prompt)`
   * (model, config, history, prompt) return or raise; what `list_models` returns or raises.
   */
  datatype Sdk = Sdk(
    configure: string -> Option<Error>,
    generateContent: (string, GenerationConfig, string) -> Result<Reply, Error>,
    sendMessage: (string, GenerationConfig, seq<HistoryEntry>, string) -> Result<Reply, Error>,
    listModels: Result<seq<string>, Error>)

  /** A constructed provider: its API key, its default model and the settings it falls back to. */
  datatype Provider = Provider(apiKey: string, defaultModel: string, config: Settings)

  /**
   * `GeminiProvider(api_key)`: the key is `api_key or settings.gemini_api_key`; a falsy key
   * raises ValueError; whatever `genai.configure` raises propagates unchanged.
   */
  function New(apiKey: Option<string>, config: Settings, sdk: Sdk): (r: Result<Provider, Error>)
    ensures !TruthyString(apiKey) && !TruthyString(config.geminiApiKey) ==> r == Failure(ValueError(KeyRequired))
    ensures TruthyString(apiKey) || TruthyString(config.geminiApiKey) ==>
      var key := OptionOr(apiKey, config.geminiApiKey).value;
      match sdk.configure(key)
      case Some(e) => r == Failure(e)
      case None => r == Success(Provider(key, DefaultModel, config))
    ensures r.Success? ==> r.value.apiKey != "" && r.value.defaultModel == DefaultModel
  {
    var key := OptionOr(apiKey, config.geminiApiKey);
    if !TruthyString(key) then Failure(ValueError(KeyRequired))
    else match sdk.configure(key.value)
      case Some(e) => Failure(e)
      case None => Success(Provider(key.value, DefaultModel, config))
  }

  /** The model a call uses: `model or self.default_model`. */
  function ResolveModel(p: Provider, model: Option<string>): (m: string)
    ensures model == None || model == Some("") ==> m == p.defaultModel
    ensures TruthyString(model) ==> m == model.value
  {
    StringOr(model, p.defaultModel)
  }

  /** The generation config of a call: every parameter defaulted by `or` from the settings. */
  function ConfigFor(p: Provider, maxTokens: Option<int>, temperature: Option<real>, topP: Option<real>): (c: GenerationConfig)
    ensures c.maxOutputTokens == IntOr(maxTokens, p.config.maxTokens)
    ensures c.temperature == RealOr(temperature, p.config.temperature)
    ensures c.topP == RealOr(topP, p.config.topP)
  {
    GenerationConfig(
      RealOr(temperature, p.config.temperature),
      RealOr(topP, p.config.topP),
      IntOr(maxTokens, p.config.maxTokens))
  }

  // ---------------------------------------------------------------------------
  // The message-to-history conversion of `chat`.
  // ---------------------------------------------------------------------------

  /** The loop's two variables: `chat_history` and `current_prompt`. */
  datatype ChatState = ChatState(history: seq<HistoryEntry>, currentPrompt: string)

  const Start: ChatState := ChatState([], "")

  /**
   * One iteration of the loop. A user message replaces the prompt; an assistant message
   * appends the (prompt, reply) pair and keeps the prompt; a system message is prepended
   * to the prompt while the history is empty and ignored afterwards; other roles are ignored.
   */
  function Step(st: ChatState, msg: ChatMessage): (r: ChatState)
    ensures |st.history| <= |r.history| && r.history[..|st.history|] == st.history
    ensures |r.history| == |st.history| + (if msg.role == "assistant" then 2 else 0)
    ensures msg.role == "user" ==> r.currentPrompt == msg.content
    ensures msg.role == "assistant" ==>
      r.history[|st.history|..] == [HistoryEntry("user", [st.currentPrompt]), HistoryEntry("model", [msg.content])]
    ensures msg.role != "user" && msg.role != "system" ==> r.currentPrompt == st.currentPrompt
    ensures msg.role == "system" && st.history == [] ==> HasPrefix(r.currentPrompt, msg.content)
    ensures msg.role == "system" && st.history != [] ==> r == st
  {
    if msg.role == "user" then
      ChatState(st.history, msg.content)
    else if msg.role == "assistant" then
      ChatState(st.history + [HistoryEntry("user", [st.currentPrompt]), HistoryEntry("model", [msg.content])], st.currentPrompt)
    else if msg.role == "system" then
      if st.history == [] then
        ChatState(st.history, if st.currentPrompt != "" then msg.content + "\n\n" + st.currentPrompt else msg.content)
      else st
    else st
  }

  /** The loop run from state `st` over `messages`. */
  function Run(st: ChatState, messages: seq<ChatMessage>): ChatState
    decreases |messages|
  {
    if messages == [] then st
    else Step(Run(st, messages[..|messages| - 1]), messages[|messages| - 1])
  }

  /** The state the loop of `chat` ends in. */
  function Convert(messages: seq<ChatMessage>): ChatState
  {
    Run(Start, messages)
  }

  /** The number of messages with the given role. */
  function CountRole(messages: seq<ChatMessage>, role: string): (n: nat)
    ensures n <= |messages|
  {
    if messages == [] then 0
    else CountRole(messages[..|messages| - 1], role) + (if messages[|messages| - 1].role == role then 1 else 0)
  }

  /** The loop of `chat`, statement by statement. */
  method ConvertMessages(messages: seq<ChatMessage>) returns (history: seq<HistoryEntry>, currentPrompt: string)
    ensures ChatState(history, currentPrompt) == Convert(messages)
  {
    history := [];
    currentPrompt := "";
    for i := 0 to |messages|
      invariant ChatState(history, currentPrompt) == Convert(messages[..i])
    {
      var msg := messages[i];
      if msg.role == "user" {
        currentPrompt := msg.content;
      } else if msg.role == "assistant" {
        history := history + [HistoryEntry("user", [currentPrompt])];
        history := history + [HistoryEntry("model", [msg.content])];
      } else if msg.role == "system" {
        if history == [] {
          currentPrompt := if currentPrompt != "" then msg.content + "\n\n" + currentPrompt else msg.content;
        }
      }
      assert messages[..i + 1][..i] == messages[..i];
    }
    assert messages[..|messages|] == messages;
  }

  /** Running over `a + b` is running over `a`, then over `b`. */
  lemma {:induction false} RunAppend(st: ChatState, a: seq<ChatMessage>, b: seq<ChatMessage>)
    ensures Run(st, a + b) == Run(Run(st, a), b)
    decreases |b|
  {
    if b == [] {
      assert a + b == a;
    } else {
      var b' := b[..|b| - 1];
      assert (a + b)[..|a + b| - 1] == a + b';
      assert (a + b)[|a + b| - 1] == b[|b| - 1];
      RunAppend(st, a, b');
    }
  }

  /**
   * The history has two entries per assistant message, alternating "user" and "model"
   * from "user", each with exactly one part.
   */
  lemma {:induction false} HistoryShape(messages: seq<ChatMessage>)
    ensures var h := Convert(messages).history;
      && |h| == 2 * CountRole(messages, "assistant")
      && forall k :: 0 <= k < |h| ==>
           h[k].role == (if k % 2 == 0 then "user" else "model") && |h[k].parts| == 1
    decreases |messages|
  {
    if messages != [] {
      HistoryShape(messages[..|messages| - 1]);
    }
  }

  /** The history of a prefix of the messages is a prefix of the history. */
  lemma {:induction false} HistoryOfPrefix(messages: seq<ChatMessage>, i: nat)
    requires i <= |messages|
    ensures var h := Convert(messages).history; var h' := Convert(messages[..i]).history;
      |h'| <= |h| && h[..|h'|] == h'
    decreases |messages| - i
  {
    if i == |messages| {
      assert messages[..i] == messages;
    } else {
      var m' := messages[..|messages| - 1];
      assert m'[..i] == messages[..i];
      HistoryOfPrefix(m', i);
    }
  }

  /**
   * The k-th assistant message (k = the number of assistant messages before index j) gives
   * history entries 2k and 2k+1: the prompt current when it was seen, then its content.
   */
  lemma AssistantTurnRecorded(messages: seq<ChatMessage>, j: nat)
    requires j < |messages| && messages[j].role == "assistant"
    ensures var h := Convert(messages).history;
      var k := CountRole(messages[..j], "assistant");
      && 2 * k + 1 < |h|
      && h[2 * k] == HistoryEntry("user", [Convert(messages[..j]).currentPrompt])
      && h[2 * k + 1] == HistoryEntry("model", [messages[j].content])
  {
    var before := messages[..j];
    var upto := messages[..j + 1];
    assert upto[..|upto| - 1] == before;
    assert upto[|upto| - 1] == messages[j];
    HistoryShape(before);
    HistoryOfPrefix(messages, j + 1);
    var h := Convert(messages).history;
    var h' := Convert(upto).history;
    assert h' == Convert(before).history + [HistoryEntry("user", [Convert(before).currentPrompt]), HistoryEntry("model", [messages[j].content])];
    assert h[..|h'|] == h';
  }

  /** Messages that are neither user nor system messages leave the prompt as it is. */
  lemma {:induction false} PromptKept(st: ChatState, b: seq<ChatMessage>)
    requires forall k :: 0 <= k < |b| ==> b[k].role != "user" && b[k].role != "system"
    ensures Run(st, b).currentPrompt == st.currentPrompt
    decreases |b|
  {
    if b != [] {
      PromptKept(st, b[..|b| - 1]);
    }
  }

  /**
   * A user message overwrites the prompt: whatever came before it (a system message
   * included) is lost, and later assistant or unknown-role messages do not reset it.
   */
  lemma UserOverwrites(a: seq<ChatMessage>, u: ChatMessage, b: seq<ChatMessage>)
    requires u.role == "user"
    requires forall k :: 0 <= k < |b| ==> b[k].role != "user" && b[k].role != "system"
    ensures Convert(a + [u] + b).currentPrompt == u.content
  {
    RunAppend(Start, a + [u], b);
    assert (a + [u])[..|a + [u]| - 1] == a;
    PromptKept(Run(Start, a + [u]), b);
  }

  /** `[system s, user u]` sends `u` with no history: the system message is lost. */
  lemma LeadingSystemLost(s: string, u: string)
    ensures Convert([ChatMessage("system", s), ChatMessage("user", u)]) == ChatState([], u)
  {
    var m := [ChatMessage("system", s), ChatMessage("user", u)];
    assert m[..1] == [ChatMessage("system", s)];
    assert [ChatMessage("system", s)][..0] == [];
    assert Run(Start, []) == Start;
    assert Convert(m[..1]) == Step(Start, ChatMessage("system", s)) == ChatState([], s);
  }

  /** Before any assistant turn a system message is prepended to a non-empty prompt, or becomes the prompt. */
  lemma SystemFoldedWhileHistoryEmpty(a: seq<ChatMessage>, s: ChatMessage)
    requires s.role == "system" && CountRole(a, "assistant") == 0
    ensures var before := Convert(a).currentPrompt;
      Convert(a + [s]) == ChatState([], if before != "" then s.content + "\n\n" + before else s.content)
  {
    HistoryShape(a);
    assert (a + [s])[..|a + [s]| - 1] == a;
  }

  /** After any assistant turn a system message has no effect at all. */
  lemma SystemIgnoredAfterAssistant(a: seq<ChatMessage>, s: ChatMessage, b: seq<ChatMessage>)
    requires s.role == "system" && CountRole(a, "assistant") > 0
    ensures Convert(a + [s] + b) == Convert(a + b)
  {
    HistoryShape(a);
    assert (a + [s])[..|a + [s]| - 1] == a;
    RunAppend(Start, a + [s], b);
    RunAppend(Start, a, b);
  }

  /** A message whose role is not user, assistant or system has no effect at all. */
  lemma OtherRolesIgnored(a: seq<ChatMessage>, x: ChatMessage, b: seq<ChatMessage>)
    requires x.role != "user" && x.role != "assistant" && x.role != "system"
    ensures Convert(a + [x] + b) == Convert(a + b)
  {
    assert (a + [x])[..|a + [x]| - 1] == a;
    RunAppend(Start, a + [x], b);
    RunAppend(Start, a, b);
  }

  // ---------------------------------------------------------------------------
  // The operations.
  // ---------------------------------------------------------------------------

  /** The usage dictionary: always present, each count None when the reply has no usage metadata. */
  function UsageOf(reply: Reply): (u: Usage)
    ensures u.Keys == {PromptTokensKey, CompletionTokensKey, TotalTokensKey}
    ensures reply.usageMetadata == None ==>
      u[PromptTokensKey] == None && u[CompletionTokensKey] == None && u[TotalTokensKey] == None
    ensures reply.usageMetadata.Some? ==>
      && u[PromptTokensKey] == Some(reply.usageMetadata.value.promptTokenCount)
      && u[CompletionTokensKey] == Some(reply.usageMetadata.value.candidatesTokenCount)
      && u[TotalTokensKey] == Some(reply.usageMetadata.value.totalTokenCount)
  {
    match reply.usageMetadata
    case None => TokenUsage(None, None, None)
    case Some(t) => TokenUsage(Some(t.promptTokenCount), Some(t.candidatesTokenCount), Some(t.totalTokenCount))
  }

  /** The response built from a reply: its text, provider "gemini", the resolved model. */
  function ToResponse(reply: Reply, model: string): (r: GenerationResponse)
    ensures r.text == reply.text && r.provider == Name && r.model == model
    ensures r.usage == Some(UsageOf(reply)) && r.metadata == Some(reply.metadata)
  {
    GenerationResponse(reply.text, Name, model, Some(UsageOf(reply)), Some(reply.metadata))
  }

  /** `generate`: one vendor call; its failure is re-raised as an Exception with the generation prefix. */
  function Generate(p: Provider, sdk: Sdk, args: GenerateArgs): (r: Result<GenerationResponse, Error>)
    ensures r.Success? ==> r.value.provider == Name && r.value.model == ResolveModel(p, args.model)
    ensures r.Failure? ==> r.error.Exception? && HasPrefix(r.error.message, GenerationFailed)
    ensures var sent := sdk.generateContent(ResolveModel(p, args.model),
                                            ConfigFor(p, args.maxTokens, args.temperature, args.topP), args.prompt);
      && (sent.Failure? ==> r == Failure(Exception(GenerationFailed + sent.error.message)))
      && (sent.Success? ==> r == Success(ToResponse(sent.value, ResolveModel(p, args.model))))
  {
    var model := ResolveModel(p, args.model);
    var config := ConfigFor(p, args.maxTokens, args.temperature, args.topP);
    match sdk.generateContent(model, config, args.prompt)
    case Failure(e) => Failure(Exception(GenerationFailed + e.message))
    case Success(reply) => Success(ToResponse(reply, model))
  }

  /**
   * `chat`: the messages are converted to a history and a final prompt, and the prompt is
   * sent on a chat started with that history; a failure is re-raised with the chat prefix.
   */
  function Chat(p: Provider, sdk: Sdk, args: ChatArgs): (r: Result<GenerationResponse, Error>)
    ensures r.Success? ==> r.value.provider == Name && r.value.model == ResolveModel(p, args.model)
    ensures r.Failure? ==> r.error.Exception? && HasPrefix(r.error.message, ChatFailed)
    ensures var st := Convert(args.messages);
      var sent := sdk.sendMessage(ResolveModel(p, args.model),
                                  ConfigFor(p, args.maxTokens, args.temperature, args.topP), st.history, st.currentPrompt);
      && (sent.Failure? ==> r == Failure(Exception(ChatFailed + sent.error.message)))
      && (sent.Success? ==> r == Success(ToResponse(sent.value, ResolveModel(p, args.model))))
  {
    var model := ResolveModel(p, args.model);
    var config := ConfigFor(p, args.maxTokens, args.temperature, args.topP);
    var st := Convert(args.messages);
    match sdk.sendMessage(model, config, st.history, st.currentPrompt)
    case Failure(e) => Failure(Exception(ChatFailed + e.message))
    case Success(reply) => Success(ToResponse(reply, model))
  }

  /** `health_check`: true exactly when the model listing succeeds and is non-empty. */
  function HealthCheck(sdk: Sdk): (healthy: bool)
    ensures healthy <==> sdk.listModels.Success? && |sdk.listModels.value| > 0
  {
    match sdk.listModels
    case Success(models) => |models| > 0
    case Failure(_) => false
  }

  /** `get_available_models`: a fixed catalog of four distinct models that contains the default one. */
  function AvailableModels(): (models: seq<string>)
    ensures |models| == 4
    ensures DefaultModel in models
    ensures forall i, j :: 0 <= i < j < |models| ==> models[i] != models[j]
  {
    ["gemini-pro", "gemini-pro-vision", "gemini-1.5-pro", "gemini-1.5-flash"]
  }
}
