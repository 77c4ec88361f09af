/**
 * The facade `GenAIClient` (client.py): a registry from provider type to provider,
 * filled once at construction, and the operations that go through it.
 */
module Client {
  import opened Wrappers
  import opened Config
  import opened Models
  import opened Providers
  import OpenAIProvider
  import GeminiProvider

  /** `str()` of the ValueError `asyncio.Semaphore(n)` raises for a negative `n`. */
  const SemaphoreNegative: string := "Semaphore initial value must be >= 0"

  /** The message of the ValueError raised for a provider that is a valid type but not registered. */
  function NotAvailableMessage(provider: string): string
  {
    "Provider " + provider + " is not available"
  }

  /**
   * How `batch_generate` ends: with one slot per prompt (a response or the captured exception),
   * by raising, or never (no semaphore permit is ever available).
   */
  datatype BatchOutcome =
    | Gathered(slots: seq<Result<GenerationResponse, Error>>)
    | Raised(error: Error)
    | Stalled

  /** One entry of `get_provider_info`. */
  datatype ProviderInfo = ProviderInfo(available: bool, models: seq<string>, providerName: string)

  /** The position of a provider type in the order `_initialize_providers` inserts it. */
  function Rank(t: ProviderType): nat
  {
    match t
    case OpenAI => 0
    case Bedrock => 1
    case Gemini => 2
  }

  /**
   * The registry `_initialize_providers` builds: OpenAI and Gemini are attempted only when their
   * configured key is truthy, Bedrock always; a provider whose construction raises is absent.
   */
  function InitialRegistry(config: Settings, v: Vendors): (m: map<ProviderType, Provider>)
    ensures OpenAI in m <==> TruthyString(config.openaiApiKey) && v.openai.connect(config.openaiApiKey.value).None?
    ensures Bedrock in m <==> v.bedrock.construct.None?
    ensures Gemini in m <==> TruthyString(config.geminiApiKey) && v.gemini.configure(config.geminiApiKey.value).None?
    ensures OpenAI in m ==>
      m[OpenAI] == OpenAIBackend(OpenAIProvider.Provider(config.openaiApiKey.value, OpenAIProvider.DefaultModel, config))
    ensures Gemini in m ==>
      m[Gemini] == GeminiBackend(GeminiProvider.Provider(config.geminiApiKey.value, GeminiProvider.DefaultModel, config))
    ensures forall t :: t in m ==> m[t].Kind() == t
  {
    var withOpenAI: map<ProviderType, Provider> :=
      if TruthyString(config.openaiApiKey) then
        match OpenAIProvider.New(None, config, v.openai)
        case Success(p) => map[OpenAI := OpenAIBackend(p)]
        case Failure(_) => map[]
      else map[];
    var withBedrock := if v.bedrock.construct.None? then withOpenAI[Bedrock := BedrockBackend] else withOpenAI;
    if TruthyString(config.geminiApiKey) then
      match GeminiProvider.New(None, config, v.gemini)
      case Success(p) => withBedrock[Gemini := GeminiBackend(p)]
      case Failure(_) => withBedrock
    else withBedrock
  }

  /** The types of `keys` in the order `_initialize_providers` inserts them. */
  function InsertionOrder(keys: set<ProviderType>): (order: seq<ProviderType>)
    ensures forall t :: t in order <==> t in keys
    ensures forall i, j :: 0 <= i < j < |order| ==> Rank(order[i]) < Rank(order[j])
  {
    var order := (if OpenAI in keys then [OpenAI] else [])
                 + (if Bedrock in keys then [Bedrock] else [])
                 + (if Gemini in keys then [Gemini] else []);
    InsertionOrderCovers(keys, order);
    order
  }

  /** The three-way filter above lists exactly the types of `keys`. */
  lemma InsertionOrderCovers(keys: set<ProviderType>, order: seq<ProviderType>)
    requires order == (if OpenAI in keys then [OpenAI] else [])
                      + (if Bedrock in keys then [Bedrock] else [])
                      + (if Gemini in keys then [Gemini] else [])
    ensures forall t :: t in order <==> t in keys
  {
    forall t ensures t in order <==> t in keys {
      match t
      case OpenAI =>
      case Bedrock =>
      case Gemini =>
    }
  }

  /** The value of each type, in order. */
  function ValuesOf(order: seq<ProviderType>): (names: seq<string>)
    ensures |names| == |order|
    ensures forall i :: 0 <= i < |order| ==> names[i] == order[i].Value()
  {
    if order == [] then [] else [order[0].Value()] + ValuesOf(order[1..])
  }

  /** The values of a list of types name exactly those types, and each is a valid enum value. */
  lemma ValuesOfMembers(order: seq<ProviderType>)
    ensures forall t :: t in order <==> t.Value() in ValuesOf(order)
    ensures forall s :: s in ValuesOf(order) ==> ParseProviderType(s).Success?
  {
    var names := ValuesOf(order);
    forall s | s in names ensures ParseProviderType(s).Success? {
      var i :| 0 <= i < |names| && names[i] == s;
      assert s == order[i].Value();
    }
    forall t | t in order ensures t.Value() in names {
      var i :| 0 <= i < |order| && order[i] == t;
      assert names[i] == t.Value();
    }
    forall t: ProviderType | t.Value() in names ensures t in order {
      var i :| 0 <= i < |names| && names[i] == t.Value();
      ValueInjective(order[i], t);
    }
  }

  /** The value at position i parses back to the type at position i. */
  lemma ParsesBack(order: seq<ProviderType>, i: nat)
    requires i < |order|
    ensures ParseProviderType(ValuesOf(order)[i]) == Success(order[i])
  {
    assert ValuesOf(order)[i] == order[i].Value();
    ParseValueRoundTrip(order[i]);
  }

  /** The values of types listed in insertion order are distinct and parse back in that order. */
  lemma ValuesOfDistinct(order: seq<ProviderType>)
    requires forall i, j :: 0 <= i < j < |order| ==> Rank(order[i]) < Rank(order[j])
    ensures forall i :: 0 <= i < |order| ==> ParseProviderType(ValuesOf(order)[i]) == Success(order[i])
    ensures forall i, j :: 0 <= i < j < |order| ==> ValuesOf(order)[i] != ValuesOf(order)[j]
    ensures forall i, j :: 0 <= i < j < |order| ==>
      Rank(ParseProviderType(ValuesOf(order)[i]).value) < Rank(ParseProviderType(ValuesOf(order)[j]).value)
  {
    forall i | 0 <= i < |order| ensures ParseProviderType(ValuesOf(order)[i]) == Success(order[i]) {
      ParsesBack(order, i);
    }
  }

  /** A map whose keys are exactly the values of the types in `types` is keyed by that set of values. */
  lemma KeysAreValues<V>(m: map<string, V>, types: set<ProviderType>)
    requires forall t: ProviderType :: t.Value() in m <==> t in types
    requires forall s :: s in m ==> ParseProviderType(s).Success?
    ensures m.Keys == set t | t in types :: t.Value()
  {
    forall s | s in m ensures s in set t | t in types :: t.Value() {
      assert ParseProviderType(s).value.Value() == s;
    }
  }

  class GenAIClient {
    /** The registry; never changed after construction. */
    var providers: map<ProviderType, Provider>
    /** The vendor SDKs the providers call. */
    const vendors: Vendors

    /** `GenAIClient()`: never raises; the registry is what `_initialize_providers` builds from an empty one. */
    constructor (config: Settings, vendors: Vendors)
      ensures this.vendors == vendors
      ensures providers == InitialRegistry(config, vendors)
    {
      this.vendors := vendors;
      providers := map[];
      new;
      InitializeProviders(config);
    }

    /**
     * `_initialize_providers`: fills the registry entry by entry, dropping every provider whose
     * construction raises. It is private and runs once, from the constructor, on the empty registry.
     */
    method InitializeProviders(config: Settings)
      requires providers == map[]
      modifies this
      ensures providers == InitialRegistry(config, vendors)
    {
      if TruthyString(config.openaiApiKey) {
        var attempt := OpenAIProvider.New(None, config, vendors.openai);
        if attempt.Success? {
          providers := providers[OpenAI := OpenAIBackend(attempt.value)];
        }
      }
      if vendors.bedrock.construct.None? {
        providers := providers[Bedrock := BedrockBackend];
      }
      if TruthyString(config.geminiApiKey) {
        var attempt := GeminiProvider.New(None, config, vendors.gemini);
        if attempt.Success? {
          providers := providers[Gemini := GeminiBackend(attempt.value)];
        }
      }
      ghost var expected := InitialRegistry(config, vendors);
      assert providers.Keys == expected.Keys;
    }

    /**
     * The lookup every call starts with: `ProviderType(provider)`, which raises for an unknown
     * string, then the registry membership test, which raises "not available".
     */
    function Resolve(provider: string): (r: Result<ProviderType, Error>)
      reads this
      ensures r.Success? <==> exists t :: t in providers && t.Value() == provider
      ensures r.Success? ==> r.value in providers && r.value.Value() == provider
      ensures ParseProviderType(provider).Failure? ==> r == Failure(ValueError(InvalidProviderMessage(provider)))
      ensures ParseProviderType(provider).Success? && ParseProviderType(provider).value !in providers ==>
        r == Failure(ValueError(NotAvailableMessage(provider)))
    {
      match ParseProviderType(provider)
      case Failure(e) => Failure(e)
      case Success(t) => if t in providers then Success(t) else Failure(ValueError(NotAvailableMessage(provider)))
    }

    /** `generate`: looks the provider up and forwards the arguments unchanged, returning its result unchanged. */
    function Generate(prompt: string, provider: string, model: Option<string>, maxTokens: Option<int>,
                      temperature: Option<real>, topP: Option<real>): (r: Result<GenerationResponse, Error>)
      reads this
      ensures forall t :: t in providers && t.Value() == provider ==>
        r == Providers.Generate(providers[t], vendors, GenerateArgs(prompt, model, maxTokens, temperature, topP))
      ensures ParseProviderType(provider).Failure? ==> r == Failure(ValueError(InvalidProviderMessage(provider)))
      ensures ParseProviderType(provider).Success? && ParseProviderType(provider).value !in providers ==>
        r == Failure(ValueError(NotAvailableMessage(provider)))
    {
      match Resolve(provider)
      case Failure(e) => Failure(e)
      case Success(t) => Providers.Generate(providers[t], vendors, GenerateArgs(prompt, model, maxTokens, temperature, topP))
    }

    /** `chat`: looks the provider up and forwards the arguments unchanged, returning its result unchanged. */
    function Chat(messages: seq<ChatMessage>, provider: string, model: Option<string>, maxTokens: Option<int>,
                  temperature: Option<real>, topP: Option<real>): (r: Result<GenerationResponse, Error>)
      reads this
      ensures forall t :: t in providers && t.Value() == provider ==>
        r == Providers.Chat(providers[t], vendors, ChatArgs(messages, model, maxTokens, temperature, topP))
      ensures ParseProviderType(provider).Failure? ==> r == Failure(ValueError(InvalidProviderMessage(provider)))
      ensures ParseProviderType(provider).Success? && ParseProviderType(provider).value !in providers ==>
        r == Failure(ValueError(NotAvailableMessage(provider)))
    {
      match Resolve(provider)
      case Failure(e) => Failure(e)
      case Success(t) => Providers.Chat(providers[t], vendors, ChatArgs(messages, model, maxTokens, temperature, topP))
    }

    /** `get_available_models`: looks the provider up and returns its catalog. */
    function GetAvailableModels(provider: string): (r: Result<seq<string>, Error>)
      reads this
      ensures forall t :: t in providers && t.Value() == provider ==>
        r == Providers.AvailableModels(providers[t], vendors)
      ensures ParseProviderType(provider).Failure? ==> r == Failure(ValueError(InvalidProviderMessage(provider)))
      ensures ParseProviderType(provider).Success? && ParseProviderType(provider).value !in providers ==>
        r == Failure(ValueError(NotAvailableMessage(provider)))
    {
      match Resolve(provider)
      case Failure(e) => Failure(e)
      case Success(t) => Providers.AvailableModels(providers[t], vendors)
    }

    /**
     * The units of `batch_generate`, one per prompt in input order: slot i is the outcome of
     * `generate(prompts[i])` with model, max_tokens and temperature forwarded and top_p not.
     */
    function GenerateEach(prompts: seq<string>, provider: string, model: Option<string>, maxTokens: Option<int>,
                          temperature: Option<real>): (slots: seq<Result<GenerationResponse, Error>>)
      reads this
      ensures |slots| == |prompts|
      ensures forall i :: 0 <= i < |prompts| ==>
        slots[i] == Generate(prompts[i], provider, model, maxTokens, temperature, None)
    {
      if prompts == [] then []
      else [Generate(prompts[0], provider, model, maxTokens, temperature, None)]
           + GenerateEach(prompts[1..], provider, model, maxTokens, temperature)
    }

    /**
     * `batch_generate`, as its sequential, index-aligned outcome: a negative concurrency raises
     * when the semaphore is built, zero permits never let a unit run, and otherwise every unit's
     * outcome, failures included, is gathered into its own slot.
     */
    function BatchGenerate(prompts: seq<string>, provider: string, model: Option<string>, maxTokens: Option<int>,
                           temperature: Option<real>, concurrentRequests: int): (r: BatchOutcome)
      reads this
      ensures concurrentRequests < 0 ==> r == Raised(ValueError(SemaphoreNegative))
      ensures concurrentRequests == 0 && prompts != [] ==> r == Stalled
      ensures concurrentRequests > 0 || (concurrentRequests == 0 && prompts == []) ==>
        && r.Gathered?
        && |r.slots| == |prompts|
        && forall i :: 0 <= i < |prompts| ==> r.slots[i] == Generate(prompts[i], provider, model, maxTokens, temperature, None)
    {
      if concurrentRequests < 0 then Raised(ValueError(SemaphoreNegative))
      else if concurrentRequests == 0 && prompts != [] then Stalled
      else Gathered(GenerateEach(prompts, provider, model, maxTokens, temperature))
    }

    /** The registered provider types in the registry's iteration order, which is insertion order. */
    function RegisteredInOrder(): (order: seq<ProviderType>)
      reads this
      ensures forall t :: t in order <==> t in providers
      ensures forall i, j :: 0 <= i < j < |order| ==> Rank(order[i]) < Rank(order[j])
    {
      InsertionOrder(providers.Keys)
    }

    /** `get_available_providers`: the value of every registered provider type, each once. */
    function GetAvailableProviders(): (names: seq<string>)
      reads this
      ensures forall t :: t in providers <==> t.Value() in names
      ensures forall s :: s in names ==> ParseProviderType(s).Success?
      ensures forall i, j :: 0 <= i < j < |names| ==> names[i] != names[j]
      ensures forall i, j :: 0 <= i < j < |names| ==>
        Rank(ParseProviderType(names[i]).value) < Rank(ParseProviderType(names[j]).value)
    {
      var order := RegisteredInOrder();
      ValuesOfMembers(order);
      ValuesOfDistinct(order);
      ValuesOf(order)
    }

    /** Whether `health_check` reports the registered provider `t` healthy: an exception counts as unhealthy. */
    function Healthy(t: ProviderType): (healthy: bool)
      reads this
      requires t in providers
      ensures healthy <==> Providers.HealthCheck(providers[t], vendors) == Success(true)
    {
      match Providers.HealthCheck(providers[t], vendors)
      case Success(b) => b
      case Failure(_) => false
    }

    /** The status map after `health_check` has visited the types of `order`. */
    function HealthMap(order: seq<ProviderType>): map<string, bool>
      reads this
      requires forall t :: t in order ==> t in providers
    {
      if order == [] then map[]
      else
        var t := order[|order| - 1];
        HealthMap(order[..|order| - 1])[t.Value() := Healthy(t)]
    }

    /** The status map is keyed by the values of the visited types, each mapped to that provider's health. */
    lemma {:induction false} HealthMapContents(order: seq<ProviderType>)
      requires forall t :: t in order ==> t in providers
      ensures forall t: ProviderType :: t.Value() in HealthMap(order) <==> t in order
      ensures forall s :: s in HealthMap(order) ==> ParseProviderType(s).Success?
      ensures forall t :: t in order ==> HealthMap(order)[t.Value()] == Healthy(t)
      decreases |order|
    {
      if order != [] {
        var front := order[..|order| - 1];
        var last := order[|order| - 1];
        assert forall t :: t in order <==> t in front || t == last;
        HealthMapContents(front);
        forall u: ProviderType ensures u.Value() == last.Value() ==> u == last {
          ValueInjective(u, last);
        }
      }
    }

    /** Visiting one more provider adds its health under its type's value. */
    lemma HealthMapStep(order: seq<ProviderType>, i: nat)
      requires i < |order|
      requires forall t :: t in order ==> t in providers
      ensures HealthMap(order[..i + 1]) == HealthMap(order[..i])[order[i].Value() := Healthy(order[i])]
    {
      assert order[..i + 1][..i] == order[..i];
    }

    /** Once every registered provider is visited, the status map has one entry per registered provider. */
    lemma HealthMapOfRegistry(order: seq<ProviderType>)
      requires forall t :: t in order <==> t in providers
      ensures HealthMap(order).Keys == set t | t in providers :: t.Value()
      ensures forall t :: t in providers ==> HealthMap(order)[t.Value()] == Healthy(t)
    {
      HealthMapContents(order);
      KeysAreValues(HealthMap(order), providers.Keys);
    }

    /**
     * `health_check`: one entry per registered provider, keyed by its type's value; a provider
     * that raises is reported unhealthy without affecting the others.
     */
    method HealthCheck() returns (status: map<string, bool>)
      ensures status.Keys == set t | t in providers :: t.Value()
      ensures forall t :: t in providers ==>
        status[t.Value()] == (Providers.HealthCheck(providers[t], vendors) == Success(true))
    {
      var order := RegisteredInOrder();
      status := map[];
      for i := 0 to |order|
        invariant status == HealthMap(order[..i])
      {
        var t := order[i];
        HealthMapStep(order, i);
        var healthy := match Providers.HealthCheck(providers[t], vendors)
          case Success(b) => b
          case Failure(_) => false;
        status := status[t.Value() := healthy];
      }
      assert order[..|order|] == order;
      HealthMapOfRegistry(order);
    }

    /** The entry `get_provider_info` builds for the registered provider `t`, given its catalog. */
    function InfoOf(t: ProviderType, models: seq<string>): ProviderInfo
      reads this
      requires t in providers
    {
      ProviderInfo(true, models, Providers.Name(providers[t], vendors))
    }

    /** Whether every visited provider's catalog can be listed. */
    predicate ModelsListed(order: seq<ProviderType>)
      reads this
      requires forall t :: t in order ==> t in providers
    {
      forall t :: t in order ==> Providers.AvailableModels(providers[t], vendors).Success?
    }

    /** The info map after `get_provider_info` has visited the types of `order` without an exception. */
    function InfoMap(order: seq<ProviderType>): map<string, ProviderInfo>
      reads this
      requires forall t :: t in order ==> t in providers
      requires ModelsListed(order)
    {
      if order == [] then map[]
      else
        var t := order[|order| - 1];
        InfoMap(order[..|order| - 1])[t.Value() := InfoOf(t, Providers.AvailableModels(providers[t], vendors).value)]
    }

    /** The info map is keyed by the values of the visited types, each mapped to that provider's entry. */
    lemma {:induction false} InfoMapContents(order: seq<ProviderType>)
      requires forall t :: t in order ==> t in providers
      requires ModelsListed(order)
      ensures forall t: ProviderType :: t.Value() in InfoMap(order) <==> t in order
      ensures forall s :: s in InfoMap(order) ==> ParseProviderType(s).Success?
      ensures forall t :: t in order ==>
        InfoMap(order)[t.Value()] == InfoOf(t, Providers.AvailableModels(providers[t], vendors).value)
      decreases |order|
    {
      if order != [] {
        var front := order[..|order| - 1];
        var last := order[|order| - 1];
        assert forall t :: t in order <==> t in front || t == last;
        InfoMapContents(front);
        forall u: ProviderType ensures u.Value() == last.Value() ==> u == last {
          ValueInjective(u, last);
        }
      }
    }

    /** Visiting one more provider whose catalog can be listed adds its entry. */
    lemma InfoMapStep(order: seq<ProviderType>, i: nat)
      requires i < |order|
      requires forall t :: t in order ==> t in providers
      requires ModelsListed(order[..i])
      requires Providers.AvailableModels(providers[order[i]], vendors).Success?
      ensures ModelsListed(order[..i + 1])
      ensures InfoMap(order[..i + 1]) ==
        InfoMap(order[..i])[order[i].Value() := InfoOf(order[i], Providers.AvailableModels(providers[order[i]], vendors).value)]
    {
      assert order[..i + 1][..i] == order[..i];
    }

    /** Once every registered provider is visited, the info map has one entry per registered provider. */
    lemma InfoMapOfRegistry(order: seq<ProviderType>)
      requires forall t :: t in order <==> t in providers
      requires ModelsListed(order)
      ensures forall t :: t in providers ==> Providers.AvailableModels(providers[t], vendors).Success?
      ensures InfoMap(order).Keys == set t | t in providers :: t.Value()
      ensures forall t :: t in providers ==>
        InfoMap(order)[t.Value()] == ProviderInfo(true, Providers.AvailableModels(providers[t], vendors).value,
                                                  Providers.Name(providers[t], vendors))
    {
      InfoMapContents(order);
      KeysAreValues(InfoMap(order), providers.Keys);
    }

    /**
     * `get_provider_info`: for every registered provider, its catalog and name under its type's
     * value; a catalog that raises makes the whole call raise that error.
     */
    method GetProviderInfo() returns (r: Result<map<string, ProviderInfo>, Error>)
      ensures r.Success? <==> forall t :: t in providers ==> Providers.AvailableModels(providers[t], vendors).Success?
      ensures r.Success? ==> r.value.Keys == set t | t in providers :: t.Value()
      ensures r.Success? ==> forall t :: t in providers ==>
        r.value[t.Value()] == ProviderInfo(true, Providers.AvailableModels(providers[t], vendors).value,
                                           Providers.Name(providers[t], vendors))
      ensures r.Failure? ==> exists t :: t in providers && Providers.AvailableModels(providers[t], vendors) == Failure(r.error)
    {
      var order := RegisteredInOrder();
      var info: map<string, ProviderInfo> := map[];
      for i := 0 to |order|
        invariant ModelsListed(order[..i])
        invariant info == InfoMap(order[..i])
      {
        var t := order[i];
        var models := Providers.AvailableModels(providers[t], vendors);
        if models.Failure? {
          return Failure(models.error);
        }
        InfoMapStep(order, i);
        info := info[t.Value() := InfoOf(t, models.value)];
      }
      assert order[..|order|] == order;
      InfoMapOfRegistry(order);
      r := Success(info);
    }
  }
}
