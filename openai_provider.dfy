/**
 * The OpenAI provider (providers/openai_provider.py): construction, parameter
 * defaulting, message conversion, response construction and error wrapping.
 * The `AsyncOpenAI` SDK is an oracle (`Sdk`) that returns a value or raises.
 */
module OpenAIProvider {
  import opened Wrappers
  import opened Config
  import opened Models

  const Name: string := "openai"
  const DefaultModel: string := "gpt-3.5-turbo"
  const KeyRequired: string := "OpenAI API key is required"
  const GenerationFailed: string := "OpenAI generation failed: "
  const ChatFailed: string := "OpenAI chat completion failed: "
  /** `str()` of the IndexError raised by `response.choices[0]` on an empty list. */
  const IndexOutOfRange: string := "list index out of range"

  /** One entry of the `messages` list sent to the vendor. */
  datatype Message = Message(role: string, content: string)

  /** The arguments of `chat.completions.create` (extra keyword arguments are not modelled). */
  datatype Request = Request(
    model: string,
    messages: seq<Message>,
    maxTokens: int,
    temperature: real,
    topP: real)

  datatype TokenCounts = TokenCounts(promptTokens: int, completionTokens: int, totalTokens: int)

  datatype Choice = Choice(content: string, finishReason: string)

  /** The vendor's completion object: its id, its choices and its optional usage. */
  datatype Completion = Completion(id: string, choices: seq<Choice>, usage: Option<TokenCounts>)

  /**
   * The vendor SDK as an oracle, per API key: whether `AsyncOpenAI(api_key=…)` raises,
   * what `chat.completions.create` returns or raises, whether `models.list()` raises.
   */
  datatype Sdk = Sdk(
    connect: string -> Option<Error>,
    create: (string, Request) -> Result<Completion, Error>,
    listModels: string -> Result<seq<string>, Error>)

  /** A constructed provider: its API key, its default model and the settings it falls back to. */
  datatype Provider = Provider(apiKey: string, defaultModel: string, config: Settings)

  /**
   * `OpenAIProvider(api_key)`: the key is `api_key or settings.openai_api_key`; a falsy key
   * raises ValueError; whatever the SDK client's construction raises propagates unchanged.
   */
  function New(apiKey: Option<string>, config: Settings, sdk: Sdk): (r: Result<Provider, Error>)
    ensures !TruthyString(apiKey) && !TruthyString(config.openaiApiKey) ==> r == Failure(ValueError(KeyRequired))
    ensures TruthyString(apiKey) || TruthyString(config.openaiApiKey) ==>
      var key := OptionOr(apiKey, config.openaiApiKey).value;
      match sdk.connect(key)
      case Some(e) => r == Failure(e)
      case None => r == Success(Provider(key, DefaultModel, config))
    ensures r.Success? ==> r.value.apiKey != "" && r.value.defaultModel == DefaultModel
  {
    var key := OptionOr(apiKey, config.openaiApiKey);
    if !TruthyString(key) then Failure(ValueError(KeyRequired))
    else match sdk.connect(key.value)
      case Some(e) => Failure(e)
      case None => Success(Provider(key.value, DefaultModel, config))
  }

  /** The model a call uses: `model or self.default_model`. */
  function ResolveModel(p: Provider, model: Option<string>): (m: string)
    ensures model == None || model == Some("") ==> m == p.defaultModel
    ensures TruthyString(model) ==> m == model.value
  {
    StringOr(model, p.defaultModel)
  }

  /** The request `generate` sends: one user message holding the prompt, with every parameter defaulted by `or`. */
  function GenerateRequest(p: Provider, args: GenerateArgs): (req: Request)
    ensures req.messages == [Message("user", args.prompt)]
    ensures req.model == ResolveModel(p, args.model)
    ensures req.maxTokens == IntOr(args.maxTokens, p.config.maxTokens)
    ensures req.temperature == RealOr(args.temperature, p.config.temperature)
    ensures req.topP == RealOr(args.topP, p.config.topP)
  {
    Request(
      ResolveModel(p, args.model),
      [Message("user", args.prompt)],
      IntOr(args.maxTokens, p.config.maxTokens),
      RealOr(args.temperature, p.config.temperature),
      RealOr(args.topP, p.config.topP))
  }

  /** The list comprehension of `chat`: one vendor message per chat message, in order, role and content copied. */
  function ToMessages(messages: seq<ChatMessage>): (out: seq<Message>)
    ensures |out| == |messages|
    ensures forall i :: 0 <= i < |messages| ==>
      out[i].role == messages[i].role && out[i].content == messages[i].content
  {
    if messages == [] then []
    else [Message(messages[0].role, messages[0].content)] + ToMessages(messages[1..])
  }

  /** The request `chat` sends: the converted messages, with every parameter defaulted by `or`. */
  function ChatRequest(p: Provider, args: ChatArgs): (req: Request)
    ensures req.messages == ToMessages(args.messages)
    ensures req.model == ResolveModel(p, args.model)
    ensures req.maxTokens == IntOr(args.maxTokens, p.config.maxTokens)
    ensures req.temperature == RealOr(args.temperature, p.config.temperature)
    ensures req.topP == RealOr(args.topP, p.config.topP)
  {
    Request(
      ResolveModel(p, args.model),
      ToMessages(args.messages),
      IntOr(args.maxTokens, p.config.maxTokens),
      RealOr(args.temperature, p.config.temperature),
      RealOr(args.topP, p.config.topP))
  }

  /** The usage dictionary: None when the vendor sent none, otherwise the three counts copied. */
  function UsageOf(c: Completion): (u: Option<Usage>)
    ensures c.usage == None ==> u == None
    ensures c.usage.Some? ==> u.Some? && u.value.Keys == {PromptTokensKey, CompletionTokensKey, TotalTokensKey}
    ensures c.usage.Some? ==>
      && u.value[PromptTokensKey] == Some(c.usage.value.promptTokens)
      && u.value[CompletionTokensKey] == Some(c.usage.value.completionTokens)
      && u.value[TotalTokensKey] == Some(c.usage.value.totalTokens)
  {
    match c.usage
    case None => None
    case Some(t) => Some(TokenUsage(Some(t.promptTokens), Some(t.completionTokens), Some(t.totalTokens)))
  }

  /**
   * The response built inside the `try`: the first choice's content, provider "openai", the
   * resolved model. An empty choice list raises IndexError, which the `except` wraps with `prefix`.
   */
  function ToResponse(c: Completion, model: string, prefix: string): (r: Result<GenerationResponse, Error>)
    ensures r.Success? <==> |c.choices| > 0
    ensures r.Success? ==>
      && r.value.text == c.choices[0].content
      && r.value.provider == Name
      && r.value.model == model
      && r.value.usage == UsageOf(c)
      && r.value.metadata == Some(map["finish_reason" := c.choices[0].finishReason, "response_id" := c.id])
    ensures r.Failure? ==> r.error == Exception(prefix + IndexOutOfRange)
  {
    if |c.choices| == 0 then Failure(Exception(prefix + IndexOutOfRange))
    else Success(GenerationResponse(
      c.choices[0].content,
      Name,
      model,
      UsageOf(c),
      Some(map["finish_reason" := c.choices[0].finishReason, "response_id" := c.id])))
  }

  /** `generate`: one vendor call; its failure is re-raised as an Exception with the generation prefix. */
  function Generate(p: Provider, sdk: Sdk, args: GenerateArgs): (r: Result<GenerationResponse, Error>)
    ensures r.Success? ==> r.value.provider == Name && r.value.model == ResolveModel(p, args.model)
    ensures r.Failure? ==> r.error.Exception? && HasPrefix(r.error.message, GenerationFailed)
    ensures var sent := sdk.create(p.apiKey, GenerateRequest(p, args));
      && (sent.Failure? ==> r == Failure(Exception(GenerationFailed + sent.error.message)))
      && (sent.Success? ==> r == ToResponse(sent.value, ResolveModel(p, args.model), GenerationFailed))
  {
    var model := ResolveModel(p, args.model);
    match sdk.create(p.apiKey, GenerateRequest(p, args))
    case Failure(e) => Failure(Exception(GenerationFailed + e.message))
    case Success(c) => ToResponse(c, model, GenerationFailed)
  }

  /** `chat`: the messages are sent one-to-one; a failure is re-raised with the chat prefix. */
  function Chat(p: Provider, sdk: Sdk, args: ChatArgs): (r: Result<GenerationResponse, Error>)
    ensures r.Success? ==> r.value.provider == Name && r.value.model == ResolveModel(p, args.model)
    ensures r.Failure? ==> r.error.Exception? && HasPrefix(r.error.message, ChatFailed)
    ensures var sent := sdk.create(p.apiKey, ChatRequest(p, args));
      && (sent.Failure? ==> r == Failure(Exception(ChatFailed + sent.error.message)))
      && (sent.Success? ==> r == ToResponse(sent.value, ResolveModel(p, args.model), ChatFailed))
  {
    var model := ResolveModel(p, args.model);
    match sdk.create(p.apiKey, ChatRequest(p, args))
    case Failure(e) => Failure(Exception(ChatFailed + e.message))
    case Success(c) => ToResponse(c, model, ChatFailed)
  }

  /** `health_check`: true exactly when listing the models does not raise. */
  function HealthCheck(p: Provider, sdk: Sdk): (healthy: bool)
    ensures healthy <==> sdk.listModels(p.apiKey).Success?
  {
    match sdk.listModels(p.apiKey)
    case Success(_) => true
    case Failure(_) => false
  }

  /** `get_available_models`: a fixed catalog of four distinct models that contains the default one. */
  function AvailableModels(): (models: seq<string>)
    ensures |models| == 4
    ensures DefaultModel in models
    ensures forall i, j :: 0 <= i < j < |models| ==> models[i] != models[j]
  {
    ["gpt-4", "gpt-4-turbo-preview", "gpt-3.5-turbo", "gpt-3.5-turbo-16k"]
  }

  /** A constructed provider's default model is in its catalog, so `generate` without a model uses a listed one. */
  lemma DefaultModelListed(apiKey: Option<string>, config: Settings, sdk: Sdk, args: GenerateArgs)
    requires New(apiKey, config, sdk).Success?
    requires !TruthyString(args.model)
    ensures ResolveModel(New(apiKey, config, sdk).value, args.model) in AvailableModels()
  {
    var p := New(apiKey, config, sdk).value;
    assert p.defaultModel == DefaultModel;
    assert AvailableModels()[2] == DefaultModel;
  }
}
