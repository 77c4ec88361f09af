# GenAI multi-provider client, modelled in Dafny

This project models the core of a small Python library that gives one interface to
three hosted language-model vendors (OpenAI, AWS Bedrock, Google Gemini), and the HTTP
layer above it. The model covers:

- the provider registry that `GenAIClient` builds at construction, and every facade operation:
  `generate`, `chat`, `batch_generate`, `health_check`, `get_available_providers`,
  `get_available_models` and `get_provider_info`;
- the OpenAI and Gemini providers. That includes their construction, the `x or default`
  parameter defaulting, the OpenAI message conversion, the Gemini chat-history loop,
  response construction, error wrapping, health checks, model catalogs and names;
- the data records and the closed `ProviderType` enumeration;
- the HTTP handlers' computations. These are the success/error partition of `POST /batch`
  and the mapping from exceptions to status codes in `POST /generate` and
  `GET /providers/{provider}/models`.

Modules, one per file: `Wrappers` (Option, Result), `Config`, `Models`, `OpenAIProvider`,
`GeminiProvider`, `Providers` (dispatch over the three providers), `Client` (the
`GenAIClient` class) and `Api`.

The vendor SDKs are not modelled. Each is a parameter of the model: a record of total
functions that, for given arguments, returns a value or the error it raises.

- `OpenAIProvider.Sdk`: client construction, `chat.completions.create`, `models.list`.
- `GeminiProvider.Sdk`: `configure`, `generate_content`, a chat session's `send_message`
  after `start_chat(history)`, `list_models`.
- `Providers.BedrockService`: the Bedrock provider as a whole. bedrock_provider.py is not
  part of this model.

Python exceptions are `Models.Error`, either `ValueError(message)` or `Exception(message)`,
and an operation that can raise returns a `Result`. Python's `x or default` is written out
as `Config.StringOr`, `IntOr`, `RealOr` and `OptionOr`. Under it, `None`, `""`, `0` and
`0.0` all select the default. So an explicit temperature of 0.0 is replaced by the
configured one. The model reproduces this as the code does it.

The registry is a `map` field of the class `Client.GenAIClient`. `InitializeProviders`
fills it entry by entry. A provider whose construction raises is left out, and the error
goes no further. A Python dict iterates in insertion order, which here is OpenAI, Bedrock,
Gemini. `RegisteredInOrder` gives the registry in that order, and the loops of
`health_check` and `get_provider_info` walk it as methods with invariants.

`batch_generate` runs its units concurrently under an `asyncio.Semaphore`. The model gives
its observable outcome in sequential, index-aligned form (`Client.BatchOutcome`):

- a negative `concurrent_requests` raises the semaphore's ValueError;
- zero permits with at least one prompt never completes (`Stalled`);
- otherwise slot i holds the outcome of `generate(prompts[i])`, with model, max_tokens and
  temperature forwarded and `top_p` not forwarded.

Where the code and its comments or tests disagree, the model follows the code:

- Gemini `chat` folds a system message into the prompt only while the history is empty.
  At that point the prompt is usually still empty. So a leading system message followed
  by a user message is overwritten by the user message and lost
  (`GeminiProvider.LeadingSystemLost`). The comment at providers/gemini_provider.py:126
  says it is prepended to the first user message.
- For a string that names no provider, the unit tests expect
  "Provider invalid is not available". The code raises earlier, from the enumeration
  conversion `ProviderType(provider)`, with the message `'invalid' is not a valid
  ProviderType` (`Models.ParseProviderType`, `Client.GenAIClient.Resolve`). The
  "not available" message is raised only for a valid type that is not registered.
- `GET /providers/{provider}/models` therefore answers 404 for both cases, because both
  raise ValueError. `POST /generate` answers 500 even for an unregistered provider.

## Model

| member | source | states |
|---|---|---|
| Config.DefaultSettings | test_project/test_project/config.py:22-24 | unset settings give max_tokens 1000, temperature 0.7, top_p 0.9 |
| Config.StringOr | test_project/test_project/providers/openai_provider.py:35 | `x or default` for a string: None and "" select the default, any other string is kept |
| Config.IntOr | test_project/test_project/providers/openai_provider.py:36 | `x or default` for an int: None and 0 select the default, any other value is kept |
| Config.RealOr | test_project/test_project/providers/openai_provider.py:37-38 | `x or default` for a float: None and 0.0 select the default, any other value is kept |
| Config.OptionOr | test_project/test_project/providers/openai_provider.py:18 | `api_key or settings key`: truthy exactly when either is truthy; the first when truthy, else the second |
| Models.ParseProviderType | test_project/test_project/models.py:8-12 | `ProviderType(s)` succeeds exactly for "openai", "bedrock", "gemini", returns the member with that value, and otherwise raises the enum's ValueError |
| Models.ProviderTypeIsClosed | test_project/test_project/models.py:8-12 | the enumeration has exactly three members, in declaration order, with their values |
| Models.ParseValueRoundTrip | test_project/test_project/models.py:8-12 | `ProviderType(p.value) == p` for every member |
| Models.ValueInjective | test_project/test_project/models.py:8-12 | distinct members have distinct values |
| Models.TokenUsage | test_project/test_project/providers/openai_provider.py:54-58 | the usage dictionary of OpenAI and Gemini: exactly the three token-count keys with the given counts |
| Models.NewBatchRequest | test_project/test_project/models.py:85-92 | an omitted concurrent_requests defaults to 5; every given field is kept as given |
| Models.NewBatchResponse | test_project/test_project/models.py:95-101 | an omitted errors list defaults to the empty list; every given field is kept |
| OpenAIProvider.New | test_project/test_project/providers/openai_provider.py:16-23 | the key is `api_key or settings key`; a falsy key raises "OpenAI API key is required"; a client error propagates; otherwise the provider holds the key and default model gpt-3.5-turbo |
| OpenAIProvider.ResolveModel | test_project/test_project/providers/openai_provider.py:35 | a falsy model selects the provider's default model, a truthy one is used as given |
| OpenAIProvider.GenerateRequest | test_project/test_project/providers/openai_provider.py:35-48 | the request holds one user message with the prompt, and the model and parameters defaulted by `or` |
| OpenAIProvider.ToMessages | test_project/test_project/providers/openai_provider.py:83-86 | one vendor message per chat message, in order, with role and content copied |
| OpenAIProvider.ChatRequest | test_project/test_project/providers/openai_provider.py:77-96 | the request holds the converted messages, and the model and parameters defaulted by `or` |
| OpenAIProvider.UsageOf | test_project/test_project/providers/openai_provider.py:54-58 | usage is None when the vendor sends none, otherwise a dictionary with exactly the keys prompt_tokens, completion_tokens and total_tokens holding the three counts |
| OpenAIProvider.ToResponse | test_project/test_project/providers/openai_provider.py:50-63 | the response succeeds exactly when there is a choice; it then carries the first choice's text, provider "openai", the model, usage and finish reason and id; an empty choice list raises IndexError under the prefix |
| OpenAIProvider.Generate | test_project/test_project/providers/openai_provider.py:25-65 | a success names provider "openai" and the resolved model; every failure is an Exception prefixed "OpenAI generation failed: "; a vendor error is wrapped with its message; a completion becomes the response `ToResponse` builds from it, under the generation prefix |
| OpenAIProvider.Chat | test_project/test_project/providers/openai_provider.py:67-113 | as Generate, with the converted messages and the prefix "OpenAI chat completion failed: "; a completion becomes the response `ToResponse` builds from it |
| OpenAIProvider.HealthCheck | test_project/test_project/providers/openai_provider.py:115-121 | healthy exactly when listing the models does not raise |
| OpenAIProvider.AvailableModels | test_project/test_project/providers/openai_provider.py:123-130 | four distinct models, including the default one |
| OpenAIProvider.DefaultModelListed | test_project/test_project/providers/openai_provider.py:123-130 | a constructed provider called without a model uses a model from its catalog |
| GeminiProvider.New | test_project/test_project/providers/gemini_provider.py:15-22 | the key is `api_key or settings key`; a falsy key raises "Gemini API key is required"; a configure error propagates; otherwise default model gemini-pro |
| GeminiProvider.ResolveModel | test_project/test_project/providers/gemini_provider.py:34 | a falsy model selects the default model, a truthy one is used as given |
| GeminiProvider.ConfigFor | test_project/test_project/providers/gemini_provider.py:35-44 | temperature, top_p and max_output_tokens are defaulted by `or` from the settings |
| GeminiProvider.Step | test_project/test_project/providers/gemini_provider.py:113-128 | one iteration only appends to the history, two entries (the current prompt as user, the content as model) for an assistant message and none otherwise; a user message becomes the prompt; a system message is prepended to the prompt while the history is empty and changes nothing afterwards; other roles keep the prompt |
| GeminiProvider.ConvertMessages | test_project/test_project/providers/gemini_provider.py:108-128 | the loop ends in the state of the fold `Convert` over the messages |
| GeminiProvider.RunAppend | test_project/test_project/providers/gemini_provider.py:112-128 | running the loop over a + b equals running it over b from the state reached after a |
| GeminiProvider.HistoryShape | test_project/test_project/providers/gemini_provider.py:112-123 | the history has two entries per assistant message, alternating roles user and model, one part each |
| GeminiProvider.HistoryOfPrefix | test_project/test_project/providers/gemini_provider.py:112-123 | the history only grows: the history after a prefix of the messages is a prefix of the final one |
| GeminiProvider.AssistantTurnRecorded | test_project/test_project/providers/gemini_provider.py:115-123 | the k-th assistant message adds the pair (prompt current at that point, its content) at entries 2k and 2k+1 |
| GeminiProvider.PromptKept | test_project/test_project/providers/gemini_provider.py:112-128 | messages that are neither user nor system leave the current prompt unchanged |
| GeminiProvider.UserOverwrites | test_project/test_project/providers/gemini_provider.py:113-114 | the prompt sent is the last user message's content when only assistant or other roles follow it |
| GeminiProvider.LeadingSystemLost | test_project/test_project/providers/gemini_provider.py:124-128 | a system message followed by a user message leaves only the user content as prompt and an empty history |
| GeminiProvider.SystemFoldedWhileHistoryEmpty | test_project/test_project/providers/gemini_provider.py:125-128 | before any assistant message, a system message is prepended to a non-empty prompt with a blank line, or becomes the prompt |
| GeminiProvider.SystemIgnoredAfterAssistant | test_project/test_project/providers/gemini_provider.py:125-128 | after an assistant message, a system message changes nothing |
| GeminiProvider.OtherRolesIgnored | test_project/test_project/providers/gemini_provider.py:112-128 | a message whose role is not user, assistant or system changes nothing |
| GeminiProvider.UsageOf | test_project/test_project/providers/gemini_provider.py:142-146 | a dictionary with exactly the keys prompt_tokens, completion_tokens and total_tokens, holding the usage metadata's counts, each None when the reply has none |
| GeminiProvider.ToResponse | test_project/test_project/providers/gemini_provider.py:138-157 | the reply's text, provider "gemini", the model, the usage and the reply's metadata |
| GeminiProvider.Generate | test_project/test_project/providers/gemini_provider.py:24-78 | the prompt is sent with the resolved model and defaulted config; a reply becomes `ToResponse` of it (its text, provider "gemini", the model, the three-key usage and the reply's metadata); a failure is an Exception prefixed "Gemini generation failed: " |
| GeminiProvider.Chat | test_project/test_project/providers/gemini_provider.py:80-159 | the converted history and final prompt are sent; a reply becomes `ToResponse` of it (its text, provider "gemini", the model, the three-key usage and the reply's metadata); a failure is an Exception prefixed "Gemini chat completion failed: " |
| GeminiProvider.HealthCheck | test_project/test_project/providers/gemini_provider.py:161-167 | healthy exactly when listing the models does not raise and lists at least one |
| GeminiProvider.AvailableModels | test_project/test_project/providers/gemini_provider.py:169-176 | four distinct models, including the default one |
| Providers.Name | test_project/test_project/providers/base.py:51-55 | OpenAI and Gemini name themselves by their registry key's value |
| Providers.Generate | test_project/test_project/providers/base.py:15-26 | a successful OpenAI or Gemini response names its provider by the key's value; Bedrock is its service's result |
| Providers.Chat | test_project/test_project/providers/base.py:28-39 | as Generate, for chat |
| Providers.HealthCheck | test_project/test_project/providers/base.py:41-44 | OpenAI and Gemini never raise from the health check and report their listing's outcome |
| Providers.AvailableModels | test_project/test_project/providers/base.py:46-49 | OpenAI and Gemini always return their four-model catalog, with the default model |
| Client.InitialRegistry | test_project/test_project/client.py:18-38 | OpenAI and Gemini are registered exactly when their key is truthy and construction does not raise; Bedrock exactly when its construction does not raise; each entry is stored under its own kind |
| Client.InsertionOrder | test_project/test_project/client.py:18-38 | lists exactly the registered types, in the insertion order OpenAI, Bedrock, Gemini |
| Client.ValuesOfMembers | test_project/test_project/client.py:133-135 | the value list names exactly the listed types, all valid enum values |
| Client.ValuesOfDistinct | test_project/test_project/client.py:133-135 | the values of types in insertion order are distinct and parse back in that order |
| Client.GenAIClient.constructor | test_project/test_project/client.py:13-16 | a new client holds the given vendors, and its registry is what the initialization builds from an empty one |
| Client.GenAIClient.InitializeProviders | test_project/test_project/client.py:18-38 | run on the empty registry, as the constructor does, it leaves exactly the initial registry |
| Client.GenAIClient.Resolve | test_project/test_project/client.py:51-54 | succeeds exactly when a registered type has the given value; an unknown string raises the enum's ValueError; a valid but unregistered type raises "Provider X is not available" |
| Client.GenAIClient.Generate | test_project/test_project/client.py:40-65 | forwards all arguments to the registered provider and returns its result unchanged; both lookup errors otherwise |
| Client.GenAIClient.Chat | test_project/test_project/client.py:67-92 | forwards all arguments to the registered provider and returns its result unchanged; both lookup errors otherwise |
| Client.GenAIClient.GetAvailableModels | test_project/test_project/client.py:137-144 | the registered provider's catalog; both lookup errors otherwise |
| Client.GenAIClient.GenerateEach | test_project/test_project/client.py:107-118 | one slot per prompt, in order; slot i is `generate(prompts[i])` with top_p not forwarded |
| Client.GenAIClient.BatchGenerate | test_project/test_project/client.py:94-119 | a negative concurrency raises the semaphore's ValueError; zero permits with prompts never completes; otherwise every slot holds its unit's response or exception |
| Client.GenAIClient.RegisteredInOrder | test_project/test_project/client.py:125 | lists exactly the registered types, in insertion order |
| Client.GenAIClient.GetAvailableProviders | test_project/test_project/client.py:133-135 | names every registered type's value once, in insertion order, and nothing else |
| Client.GenAIClient.Healthy | test_project/test_project/client.py:126-129 | a provider is reported healthy exactly when its check returns true; a check that raises counts as unhealthy |
| Client.GenAIClient.HealthMapContents | test_project/test_project/client.py:121-131 | the status map after visiting some types is keyed by their values, each mapped to that provider's health |
| Client.GenAIClient.HealthMapOfRegistry | test_project/test_project/client.py:121-131 | after visiting every registered type, there is exactly one entry per registered provider |
| Client.GenAIClient.HealthCheck | test_project/test_project/client.py:121-131 | one entry per registered provider under its value; true exactly when its check returns true; a raising check counts as false |
| Client.GenAIClient.InfoMapContents | test_project/test_project/client.py:146-157 | the info map after visiting some types is keyed by their values, each mapped to its catalog and name |
| Client.GenAIClient.InfoMapOfRegistry | test_project/test_project/client.py:146-157 | after visiting every registered type, there is exactly one entry per registered provider |
| Client.GenAIClient.GetProviderInfo | test_project/test_project/client.py:146-157 | succeeds exactly when every catalog can be listed; then one entry per registered provider with available, its catalog and its name; otherwise some provider's catalog error |
| Api.DecimalString | test_project/test_project/api/main.py:194 | `str(i)`: non-empty decimal digits without leading zeros whose value is i |
| Api.ErrorLine | test_project/test_project/api/main.py:194 | the line starts with "Prompt ", the index's digits and ": ", and ends with the exception's message |
| Api.ErrorLineDeterminesPrompt | test_project/test_project/api/main.py:194 | two equal error lines name the same prompt index and the same message |
| Api.PartitionResults | test_project/test_project/api/main.py:188-196 | the loop yields the successes and the numbered error lines of the slots |
| Api.PartitionCounts | test_project/test_project/api/main.py:198-203 | success count plus error count equals the number of slots |
| Api.SuccessesAreSuccessfulSlots | test_project/test_project/api/main.py:192-196 | the successes are exactly the successful slots' values, in slot order |
| Api.ErrorLinesAreFailedSlots | test_project/test_project/api/main.py:192-196 | the error lines are exactly "Prompt i: message" for the failed slots i, in slot order |
| Api.AllFailed | test_project/test_project/api/main.py:192-196 | when every slot fails with the same error, nothing succeeds and line i reports prompt i |
| Api.AllSucceeded | test_project/test_project/api/main.py:192-196 | when every slot succeeds, the results are all values in order and there is no error line |
| Api.BatchGenerate | test_project/test_project/api/main.py:167-217 | a raised error answers 500; a stall never answers; otherwise the body holds the successes, the error lines and their counts, and the total equals the number of prompts |
| Api.UnavailableBatchFailsEveryPrompt | test_project/test_project/api/main.py:192-196 | for an unregistered provider every prompt yields "Prompt i: Provider X is not available" and none succeeds |
| Api.GenerateText | test_project/test_project/api/main.py:89-120 | the client's response is the body; every exception answers 500, including an unregistered provider |
| Api.GetProviderModels | test_project/test_project/api/main.py:233-243 | a ValueError answers 404 and any other exception 500; unknown and unregistered providers both answer 404; a registered OpenAI or Gemini provider lists four models |

## Left out

- Concurrency: `batch_generate` is modelled by its gathered outcome. Interleaving, the bound on in-flight requests and cancellation are not modelled.
- Client.GenAIClient.BatchGenerate: `asyncio.Semaphore(0)` with prompts is modelled as a batch that never completes (`Stalled`). There is no timing.
- Extra keyword arguments (`**kwargs`) forwarded to the vendors are not modelled.
- bedrock_provider.py is not part of this model. Bedrock is an oracle for each operation.
- Models.Usage: the usage dictionary maps any key to an optional integer count. Values of other types, which `Dict[str, Any]` would allow, are not represented.
- Float semantics: temperature and top_p are exact reals. Only their truthiness under `or` matters to the code.
- GeminiProvider.ToResponse: the metadata (finish reason and safety ratings from the candidates) is an uninterpreted map from the vendor's reply. Its construction from the candidates is not modelled.
- OpenAIProvider.ToResponse: the choice content is a string. The vendor's `None` content is not modelled.
- Models.ParseProviderType: the enum's error message is `'` + s + `'`, without the escaping that Python's `repr` applies to quotes and control characters.
- Settings loading from the environment and `.env` file, AWS region/profile, logging, metrics, CORS and server start-up are not modelled.
- The `/chat`, `/health` and `/providers` handlers and the ChatRequest, ChatResponse and HealthCheck records are not modelled. Their computations are the client operations they call.
- Pydantic validation of request bodies is not modelled. A request reaches a handler with a valid `ProviderType`.
- The CLI and the dashboard are not modelled.
- Each vendor is a deterministic function of its arguments. Repeated calls with the same arguments give the same outcome, and network state and rate limits are not modelled.
