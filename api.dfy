/**
 * The HTTP layer of api/main.py, restricted to what it computes: how `batch_generate`
 * splits the gathered slots into responses and numbered error lines, and how the
 * handlers turn an exception into a status code. Routing, validation and logging are
 * not modelled; a handler's outcome is a body, an HTTP error, or no response at all.
 */
module Api {
  import opened Wrappers
  import opened Models
  import opened Client

  /** What a handler produces: a body, an `HTTPException(status_code, detail)`, or nothing (it never returns). */
  datatype HttpResult<T> = Ok(body: T) | HttpError(status: int, detail: string) | NoResponse

  /** The body of `GET /providers/{provider}/models`. */
  datatype ModelsBody = ModelsBody(provider: string, models: seq<string>)

  /** The character of a decimal digit. */
  function Digit(d: nat): (c: char)
    requires d < 10
    ensures '0' <= c <= '9'
    ensures c as int - '0' as int == d
  {
    ('0' as int + d) as char
  }

  /** The number a string of decimal digits denotes. */
  function DigitsValue(s: string): nat
    requires forall i :: 0 <= i < |s| ==> '0' <= s[i] <= '9'
  {
    if s == [] then 0
    else DigitsValue(s[..|s| - 1]) * 10 + (s[|s| - 1] as int - '0' as int)
  }

  /** `str(n)` for a natural number: decimal digits without leading zeros, denoting `n`. */
  function DecimalString(n: nat): (s: string)
    ensures |s| > 0
    ensures forall i :: 0 <= i < |s| ==> '0' <= s[i] <= '9'
    ensures s[0] != '0' || s == "0"
    ensures DigitsValue(s) == n
  {
    if n < 10 then [Digit(n)]
    else
      var s := DecimalString(n / 10) + [Digit(n % 10)];
      assert s[..|s| - 1] == DecimalString(n / 10);
      s
  }

  /** The line `batch_generate` reports for the failed prompt at index `i`. */
  function ErrorLine(i: nat, e: Error): (line: string)
    ensures HasPrefix(line, "Prompt " + DecimalString(i) + ": ")
    ensures |line| >= |e.message| && line[|line| - |e.message|..] == e.message
  {
    "Prompt " + DecimalString(i) + ": " + e.message
  }

  /** A report line names its prompt unambiguously: the index and the message can be read back from it. */
  lemma ErrorLineDeterminesPrompt(i: nat, e: Error, j: nat, f: Error)
    requires ErrorLine(i, e) == ErrorLine(j, f)
    ensures i == j && e.message == f.message
  {
    var a, b := DecimalString(i), DecimalString(j);
    var line := ErrorLine(i, e);
    assert line == "Prompt " + a + ": " + e.message;
    assert line == "Prompt " + b + ": " + f.message;
    // Both index strings are digits running up to the first ':', so they have the same length.
    assert forall k :: 7 <= k < 7 + |a| ==> '0' <= line[k] <= '9';
    assert line[7 + |a|] == ':';
    assert forall k :: 7 <= k < 7 + |b| ==> '0' <= line[k] <= '9';
    assert line[7 + |b|] == ':';
    assert a == line[7..7 + |a|] == b;
    assert e.message == line[9 + |a|..] == f.message;
  }

  /** The successful responses of `results`, in order. */
  function Successes(results: seq<Result<GenerationResponse, Error>>): seq<GenerationResponse>
  {
    if results == [] then []
    else
      var last := results[|results| - 1];
      Successes(results[..|results| - 1]) + (if last.Success? then [last.value] else [])
  }

  /** One error line per failed slot of `results`, in order, numbered by the slot's index. */
  function ErrorLines(results: seq<Result<GenerationResponse, Error>>): seq<string>
  {
    if results == [] then []
    else
      var last := results[|results| - 1];
      ErrorLines(results[..|results| - 1]) + (if last.Failure? then [ErrorLine(|results| - 1, last.error)] else [])
  }

  /** The indices of the successful slots, in increasing order. */
  function SuccessIndices(results: seq<Result<GenerationResponse, Error>>): seq<nat>
  {
    if results == [] then []
    else SuccessIndices(results[..|results| - 1]) + (if results[|results| - 1].Success? then [|results| - 1] else [])
  }

  /** The indices of the failed slots, in increasing order. */
  function FailureIndices(results: seq<Result<GenerationResponse, Error>>): seq<nat>
  {
    if results == [] then []
    else FailureIndices(results[..|results| - 1]) + (if results[|results| - 1].Failure? then [|results| - 1] else [])
  }

  /**
   * The loop of `batch_generate` that separates the gathered slots: successes are kept in
   * order, each failure becomes the line "Prompt i: message" for its index i.
   */
  method PartitionResults(results: seq<Result<GenerationResponse, Error>>)
    returns (successes: seq<GenerationResponse>, errors: seq<string>)
    ensures successes == Successes(results)
    ensures errors == ErrorLines(results)
  {
    successes := [];
    errors := [];
    for i := 0 to |results|
      invariant successes == Successes(results[..i])
      invariant errors == ErrorLines(results[..i])
    {
      assert results[..i + 1][..i] == results[..i];
      match results[i]
      case Failure(e) =>
        errors := errors + [ErrorLine(i, e)];
      case Success(response) =>
        successes := successes + [response];
    }
    assert results[..|results|] == results;
  }

  /** Every slot is counted once: as a success or as an error line. */
  lemma {:induction false} PartitionCounts(results: seq<Result<GenerationResponse, Error>>)
    ensures |Successes(results)| + |ErrorLines(results)| == |results|
    ensures |Successes(results)| == |SuccessIndices(results)|
    ensures |ErrorLines(results)| == |FailureIndices(results)|
  {
    if results != [] {
      PartitionCounts(results[..|results| - 1]);
    }
  }

  /**
   * The successes are exactly the successful slots, in their original order: the k-th success is
   * the value of the slot at the k-th success index, and every successful slot has an index there.
   */
  lemma {:induction false} SuccessesAreSuccessfulSlots(results: seq<Result<GenerationResponse, Error>>)
    ensures |Successes(results)| == |SuccessIndices(results)|
    ensures forall k :: 0 <= k < |SuccessIndices(results)| ==>
      && SuccessIndices(results)[k] < |results|
      && results[SuccessIndices(results)[k]].Success?
      && Successes(results)[k] == results[SuccessIndices(results)[k]].value
    ensures forall k, l :: 0 <= k < l < |SuccessIndices(results)| ==> SuccessIndices(results)[k] < SuccessIndices(results)[l]
    ensures forall i :: 0 <= i < |results| && results[i].Success? ==> i in SuccessIndices(results)
  {
    if results != [] {
      var front := results[..|results| - 1];
      var last := results[|results| - 1];
      SuccessesAreSuccessfulSlots(front);
      assert forall i :: 0 <= i < |front| ==> front[i] == results[i];
      var idx, values := SuccessIndices(results), Successes(results);
      if last.Success? {
        assert idx == SuccessIndices(front) + [|results| - 1];
        assert values == Successes(front) + [last.value];
      } else {
        assert idx == SuccessIndices(front);
        assert values == Successes(front);
      }
    }
  }

  /**
   * The error lines are exactly the failed slots, in their original order: the k-th line names
   * the k-th failure index and carries that slot's message, and every failed slot has a line.
   */
  lemma {:induction false} ErrorLinesAreFailedSlots(results: seq<Result<GenerationResponse, Error>>)
    ensures |ErrorLines(results)| == |FailureIndices(results)|
    ensures forall k :: 0 <= k < |FailureIndices(results)| ==>
      && FailureIndices(results)[k] < |results|
      && results[FailureIndices(results)[k]].Failure?
      && ErrorLines(results)[k] == ErrorLine(FailureIndices(results)[k], results[FailureIndices(results)[k]].error)
    ensures forall k, l :: 0 <= k < l < |FailureIndices(results)| ==> FailureIndices(results)[k] < FailureIndices(results)[l]
    ensures forall i :: 0 <= i < |results| && results[i].Failure? ==> i in FailureIndices(results)
  {
    if results != [] {
      var front := results[..|results| - 1];
      var last := results[|results| - 1];
      ErrorLinesAreFailedSlots(front);
      assert forall i :: 0 <= i < |front| ==> front[i] == results[i];
      var idx, lines := FailureIndices(results), ErrorLines(results);
      if last.Failure? {
        assert idx == FailureIndices(front) + [|results| - 1];
        assert lines == ErrorLines(front) + [ErrorLine(|results| - 1, last.error)];
      } else {
        assert idx == FailureIndices(front);
        assert lines == ErrorLines(front);
      }
    }
  }

  /**
   * `POST /batch`: a negative concurrency answers 500 with the semaphore's message, zero
   * permits for a non-empty batch never answer, and otherwise the response lists the successes,
   * the numbered error lines and their counts, with the total being the number of prompts.
   */
  method BatchGenerate(client: GenAIClient, request: BatchRequest) returns (response: HttpResult<BatchResponse>)
    ensures request.concurrentRequests < 0 ==> response == HttpError(500, SemaphoreNegative)
    ensures request.concurrentRequests == 0 && request.prompts != [] ==> response == NoResponse
    ensures request.concurrentRequests > 0 || (request.concurrentRequests == 0 && request.prompts == []) ==>
      var slots := client.GenerateEach(request.prompts, request.provider.Value(), request.model,
                                       request.maxTokens, request.temperature);
      && response.Ok?
      && response.body.results == Successes(slots)
      && response.body.errors == ErrorLines(slots)
      && response.body.totalProcessed == |request.prompts|
      && response.body.successCount == |Successes(slots)|
      && response.body.errorCount == |ErrorLines(slots)|
      && response.body.successCount + response.body.errorCount == response.body.totalProcessed
  {
    var outcome := client.BatchGenerate(request.prompts, request.provider.Value(), request.model,
                                        request.maxTokens, request.temperature, request.concurrentRequests);
    match outcome
    case Raised(e) =>
      response := HttpError(500, e.message);
    case Stalled =>
      response := NoResponse;
    case Gathered(slots) =>
      var successes, errors := PartitionResults(slots);
      PartitionCounts(slots);
      response := Ok(BatchResponse(successes, |request.prompts|, |successes|, |errors|, errors));
  }

  /**
   * A batch for a provider type that is not registered fails every prompt with the same
   * "not available" error, so every prompt gets its own numbered line and nothing succeeds.
   */
  lemma UnavailableBatchFailsEveryPrompt(client: GenAIClient, request: BatchRequest)
    requires request.provider !in client.providers
    ensures var slots := client.GenerateEach(request.prompts, request.provider.Value(), request.model,
                                             request.maxTokens, request.temperature);
      && Successes(slots) == []
      && |ErrorLines(slots)| == |request.prompts|
      && forall i :: 0 <= i < |request.prompts| ==>
           ErrorLines(slots)[i] == ErrorLine(i, ValueError(NotAvailableMessage(request.provider.Value())))
  {
    var slots := client.GenerateEach(request.prompts, request.provider.Value(), request.model,
                                     request.maxTokens, request.temperature);
    var message := NotAvailableMessage(request.provider.Value());
    ParseValueRoundTrip(request.provider);
    assert forall i :: 0 <= i < |slots| ==> slots[i] == Failure(ValueError(message));
    AllFailed(slots, ValueError(message));
  }

  /** When every slot fails with `e`, nothing succeeds and line i reports `e` for prompt i. */
  lemma {:induction false} AllFailed(results: seq<Result<GenerationResponse, Error>>, e: Error)
    requires forall i :: 0 <= i < |results| ==> results[i] == Failure(e)
    ensures Successes(results) == []
    ensures |ErrorLines(results)| == |results|
    ensures forall i :: 0 <= i < |results| ==> ErrorLines(results)[i] == ErrorLine(i, e)
  {
    if results != [] {
      var front := results[..|results| - 1];
      assert forall i :: 0 <= i < |front| ==> front[i] == results[i];
      AllFailed(front, e);
      assert Successes(results) == Successes(front);
      assert ErrorLines(results) == ErrorLines(front) + [ErrorLine(|results| - 1, e)];
    }
  }

  /** When every slot succeeds, the response lists every value in order and no error line. */
  lemma {:induction false} AllSucceeded(results: seq<Result<GenerationResponse, Error>>)
    requires forall i :: 0 <= i < |results| ==> results[i].Success?
    ensures ErrorLines(results) == []
    ensures |Successes(results)| == |results|
    ensures forall i :: 0 <= i < |results| ==> Successes(results)[i] == results[i].value
  {
    if results != [] {
      var front := results[..|results| - 1];
      assert forall i :: 0 <= i < |front| ==> front[i] == results[i];
      AllSucceeded(front);
    }
  }

  /**
   * `POST /generate`: the client's response is the body; every exception, including the
   * ValueError of an unregistered provider, answers 500 with its message.
   */
  function GenerateText(client: GenAIClient, request: GenerationRequest): (response: HttpResult<GenerationResponse>)
    reads client
    ensures var r := client.Generate(request.prompt, request.provider.Value(), request.model,
                                     request.maxTokens, request.temperature, request.topP);
      && (r.Success? ==> response == Ok(r.value))
      && (r.Failure? ==> response == HttpError(500, r.error.message))
    ensures request.provider !in client.providers ==>
      response == HttpError(500, NotAvailableMessage(request.provider.Value()))
  {
    ParseValueRoundTrip(request.provider);
    match client.Generate(request.prompt, request.provider.Value(), request.model,
                          request.maxTokens, request.temperature, request.topP)
    case Success(r) => Ok(r)
    case Failure(e) => HttpError(500, e.message)
  }

  /**
   * `GET /providers/{provider}/models`: a ValueError (an unknown string or an unregistered
   * provider) answers 404, any other exception 500, both with the exception's message.
   */
  function GetProviderModels(client: GenAIClient, provider: string): (response: HttpResult<ModelsBody>)
    reads client
    ensures var r := client.GetAvailableModels(provider);
      && (r.Success? ==> response == Ok(ModelsBody(provider, r.value)))
      && (r.Failure? && r.error.ValueError? ==> response == HttpError(404, r.error.message))
      && (r.Failure? && r.error.Exception? ==> response == HttpError(500, r.error.message))
    ensures ParseProviderType(provider).Failure? ==> response == HttpError(404, InvalidProviderMessage(provider))
    ensures ParseProviderType(provider).Success? && ParseProviderType(provider).value !in client.providers ==>
      response == HttpError(404, NotAvailableMessage(provider))
    ensures (exists t :: t in client.providers && t.Value() == provider && !client.providers[t].BedrockBackend?) ==>
      response.Ok? && |response.body.models| == 4
  {
    match client.GetAvailableModels(provider)
    case Success(models) => Ok(ModelsBody(provider, models))
    case Failure(ValueError(message)) => HttpError(404, message)
    case Failure(Exception(message)) => HttpError(500, message)
  }
}
