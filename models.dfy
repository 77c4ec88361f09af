/** The records and the closed provider enumeration of models.py, plus the Python exceptions the core raises. */
module Models {
  import opened Wrappers

  /** The supported providers; `Value` is the enum member's string value. */
  datatype ProviderType = OpenAI | Bedrock | Gemini
  {
    function Value(): string
    {
      match this
      case OpenAI => "openai"
      case Bedrock => "bedrock"
      case Gemini => "gemini"
    }
  }

  /** The members in declaration order. */
  const AllProviderTypes: seq<ProviderType> := [OpenAI, Bedrock, Gemini]

  /** The exceptions of the core: `ValueError` and the plain `Exception` the providers re-raise; `message` is `str(e)`. */
  datatype Error = ValueError(message: string) | Exception(message: string)

  /** The message of the ValueError raised by `ProviderType(s)` for a string that is no member's value. */
  function InvalidProviderMessage(s: string): string
  {
    "'" + s + "' is not a valid ProviderType"
  }

  /** `ProviderType(s)`: the member whose value is `s`, or a ValueError. */
  function ParseProviderType(s: string): (r: Result<ProviderType, Error>)
    ensures r.Success? <==> s == "openai" || s == "bedrock" || s == "gemini"
    ensures r.Success? ==> r.value.Value() == s
    ensures r.Failure? ==> r.error == ValueError(InvalidProviderMessage(s))
  {
    if s == "openai" then Success(OpenAI)
    else if s == "bedrock" then Success(Bedrock)
    else if s == "gemini" then Success(Gemini)
    else Failure(ValueError(InvalidProviderMessage(s)))
  }

  /** The enumeration has exactly three members with three distinct values. */
  lemma ProviderTypeIsClosed(p: ProviderType)
    ensures p in AllProviderTypes
    ensures |AllProviderTypes| == 3
    ensures AllProviderTypes[0].Value() == "openai"
    ensures AllProviderTypes[1].Value() == "bedrock"
    ensures AllProviderTypes[2].Value() == "gemini"
  {
  }

  /** `ProviderType(p.value) == p`. */
  lemma ParseValueRoundTrip(p: ProviderType)
    ensures ParseProviderType(p.Value()) == Success(p)
  {
  }

  /** Distinct members have distinct values. */
  lemma ValueInjective(p: ProviderType, q: ProviderType)
    ensures p.Value() == q.Value() ==> p == q
  {
  }

  /** The usage dictionary: each vendor chooses its own keys; a count is None when the vendor reported none. */
  type Usage = map<string, Option<int>>

  const PromptTokensKey: string := "prompt_tokens"
  const CompletionTokensKey: string := "completion_tokens"
  const TotalTokensKey: string := "total_tokens"

  /** The usage dictionary the OpenAI and Gemini providers build: the three token-count keys. */
  function TokenUsage(prompt: Option<int>, completion: Option<int>, total: Option<int>): (u: Usage)
    ensures u.Keys == {PromptTokensKey, CompletionTokensKey, TotalTokensKey}
    ensures u[PromptTokensKey] == prompt && u[CompletionTokensKey] == completion && u[TotalTokensKey] == total
  {
    map[PromptTokensKey := prompt, CompletionTokensKey := completion, TotalTokensKey := total]
  }

  /** Vendor metadata, passed through uninterpreted. */
  type Metadata = map<string, string>

  /** `GenerationResponse`: text, provider and model are required; usage and metadata are optional. */
  datatype GenerationResponse = GenerationResponse(
    text: string,
    provider: string,
    model: string,
    usage: Option<Usage>,
    metadata: Option<Metadata>)

  /** `ChatMessage`: the role is any string, not only user, assistant or system. */
  datatype ChatMessage = ChatMessage(role: string, content: string)

  /** `GenerationRequest` as the HTTP layer receives it. */
  datatype GenerationRequest = GenerationRequest(
    prompt: string,
    provider: ProviderType,
    model: Option<string>,
    maxTokens: Option<int>,
    temperature: Option<real>,
    topP: Option<real>,
    systemPrompt: Option<string>)

  /** `BatchRequest`; `concurrentRequests` has no lower bound. */
  datatype BatchRequest = BatchRequest(
    prompts: seq<string>,
    provider: ProviderType,
    model: Option<string>,
    maxTokens: Option<int>,
    temperature: Option<real>,
    concurrentRequests: int)

  /** Builds a BatchRequest; an omitted `concurrent_requests` (None here) defaults to 5, any given integer is kept. */
  function NewBatchRequest(
    prompts: seq<string>,
    provider: ProviderType,
    model: Option<string>,
    maxTokens: Option<int>,
    temperature: Option<real>,
    concurrentRequests: Option<int>): (r: BatchRequest)
    ensures r.prompts == prompts && r.provider == provider && r.model == model
    ensures r.maxTokens == maxTokens && r.temperature == temperature
    ensures concurrentRequests == None ==> r.concurrentRequests == 5
    ensures concurrentRequests.Some? ==> r.concurrentRequests == concurrentRequests.value
  {
    BatchRequest(prompts, provider, model, maxTokens, temperature,
      match concurrentRequests case Some(n) => n case None => 5)
  }

  /** `BatchResponse`. */
  datatype BatchResponse = BatchResponse(
    results: seq<GenerationResponse>,
    totalProcessed: int,
    successCount: int,
    errorCount: int,
    errors: seq<string>)

  /** Builds a BatchResponse; an omitted `errors` (None here) defaults to the empty list. */
  function NewBatchResponse(
    results: seq<GenerationResponse>,
    totalProcessed: int,
    successCount: int,
    errorCount: int,
    errors: Option<seq<string>>): (r: BatchResponse)
    ensures r.results == results && r.totalProcessed == totalProcessed
    ensures r.successCount == successCount && r.errorCount == errorCount
    ensures errors == None ==> r.errors == []
    ensures errors.Some? ==> r.errors == errors.value
  {
    BatchResponse(results, totalProcessed, successCount, errorCount,
      match errors case Some(e) => e case None => [])
  }

  /** The arguments of `BaseProvider.generate` (extra keyword arguments are not modelled). */
  datatype GenerateArgs = GenerateArgs(
    prompt: string,
    model: Option<string>,
    maxTokens: Option<int>,
    temperature: Option<real>,
    topP: Option<real>)

  /** The arguments of `BaseProvider.chat`. */
  datatype ChatArgs = ChatArgs(
    messages: seq<ChatMessage>,
    model: Option<string>,
    maxTokens: Option<int>,
    temperature: Option<real>,
    topP: Option<real>)
}
