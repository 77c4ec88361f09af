/**
 * The provider interface of providers/base.py (generate, chat, health_check,
 * get_available_models, provider_name), dispatched over the three providers.
 * The Bedrock provider's source is not part of this model: its behaviour is an
 * oracle (`BedrockService`) that returns a value or raises for every operation.
 */
module Providers {
  import opened Wrappers
  import opened Models
  import OpenAIProvider
  import GeminiProvider

  /** What the Bedrock provider does: whether its construction raises, its name, and each operation's outcome. */
  datatype BedrockService = BedrockService(
    construct: Option<Error>,
    name: string,
    generate: GenerateArgs -> Result<GenerationResponse, Error>,
    chat: ChatArgs -> Result<GenerationResponse, Error>,
    health: Result<bool, Error>,
    models: Result<seq<string>, Error>)

  /** The vendor side of all three providers. */
  datatype Vendors = Vendors(
    openai: OpenAIProvider.Sdk,
    bedrock: BedrockService,
    gemini: GeminiProvider.Sdk)

  /** A constructed provider. */
  datatype Provider =
    | OpenAIBackend(openai: OpenAIProvider.Provider)
    | BedrockBackend
    | GeminiBackend(gemini: GeminiProvider.Provider)
  {
    /** The registry key this kind of provider is stored under. */
    function Kind(): ProviderType
    {
      match this
      case OpenAIBackend(_) => OpenAI
      case BedrockBackend => Bedrock
      case GeminiBackend(_) => Gemini
    }
  }

  /** `provider_name`: the OpenAI and Gemini providers name themselves by their registry key's value. */
  function Name(p: Provider, v: Vendors): (name: string)
    ensures !p.BedrockBackend? ==> name == p.Kind().Value()
    ensures p.BedrockBackend? ==> name == v.bedrock.name
  {
    match p
    case OpenAIBackend(_) => OpenAIProvider.Name
    case BedrockBackend => v.bedrock.name
    case GeminiBackend(_) => GeminiProvider.Name
  }

  /** `generate`: a successful OpenAI or Gemini response names the provider by its registry key's value. */
  function Generate(p: Provider, v: Vendors, args: GenerateArgs): (r: Result<GenerationResponse, Error>)
    ensures r.Success? && !p.BedrockBackend? ==> r.value.provider == p.Kind().Value()
    ensures p.BedrockBackend? ==> r == v.bedrock.generate(args)
  {
    match p
    case OpenAIBackend(o) => OpenAIProvider.Generate(o, v.openai, args)
    case BedrockBackend => v.bedrock.generate(args)
    case GeminiBackend(g) => GeminiProvider.Generate(g, v.gemini, args)
  }

  /** `chat`: a successful OpenAI or Gemini response names the provider by its registry key's value. */
  function Chat(p: Provider, v: Vendors, args: ChatArgs): (r: Result<GenerationResponse, Error>)
    ensures r.Success? && !p.BedrockBackend? ==> r.value.provider == p.Kind().Value()
    ensures p.BedrockBackend? ==> r == v.bedrock.chat(args)
  {
    match p
    case OpenAIBackend(o) => OpenAIProvider.Chat(o, v.openai, args)
    case BedrockBackend => v.bedrock.chat(args)
    case GeminiBackend(g) => GeminiProvider.Chat(g, v.gemini, args)
  }

  /** `health_check`: the OpenAI and Gemini providers never raise from it. */
  function HealthCheck(p: Provider, v: Vendors): (r: Result<bool, Error>)
    ensures p.OpenAIBackend? ==> r == Success(v.openai.listModels(p.openai.apiKey).Success?)
    ensures p.GeminiBackend? ==> r == Success(v.gemini.listModels.Success? && |v.gemini.listModels.value| > 0)
    ensures p.BedrockBackend? ==> r == v.bedrock.health
  {
    match p
    case OpenAIBackend(o) => Success(OpenAIProvider.HealthCheck(o, v.openai))
    case BedrockBackend => v.bedrock.health
    case GeminiBackend(_) => Success(GeminiProvider.HealthCheck(v.gemini))
  }

  /** `get_available_models`: the OpenAI and Gemini catalogs are fixed and never raise. */
  function AvailableModels(p: Provider, v: Vendors): (r: Result<seq<string>, Error>)
    ensures !p.BedrockBackend? ==> r.Success? && |r.value| == 4
    ensures p.OpenAIBackend? ==> OpenAIProvider.DefaultModel in r.value
    ensures p.GeminiBackend? ==> GeminiProvider.DefaultModel in r.value
    ensures p.BedrockBackend? ==> r == v.bedrock.models
  {
    match p
    case OpenAIBackend(_) => Success(OpenAIProvider.AvailableModels())
    case BedrockBackend => v.bedrock.models
    case GeminiBackend(_) => Success(GeminiProvider.AvailableModels())
  }
}
