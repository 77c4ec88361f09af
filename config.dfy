/**
 * The settings the providers fall back to (config.py), and Python's `x or default`
 * fallback rule, under which None, "" and 0 all count as "unset".
 */
module Config {
  import opened Wrappers

  /** The part of the process-wide settings the core reads; loading them from the environment is not modelled. */
  datatype Settings = Settings(
    openaiApiKey: Option<string>,
    geminiApiKey: Option<string>,
    maxTokens: int,
    temperature: real,
    topP: real)

  const DefaultMaxTokens: int := 1000
  const DefaultTemperature: real := 0.7
  const DefaultTopP: real := 0.9

  /** The settings when the environment sets nothing but (possibly) the two API keys. */
  function DefaultSettings(openaiApiKey: Option<string>, geminiApiKey: Option<string>): (s: Settings)
    ensures s.openaiApiKey == openaiApiKey && s.geminiApiKey == geminiApiKey
    ensures s.maxTokens == 1000 && s.temperature == 0.7 && s.topP == 0.9
  {
    Settings(openaiApiKey, geminiApiKey, DefaultMaxTokens, DefaultTemperature, DefaultTopP)
  }

  // Python truthiness of the optional values the providers test with `or`.

  predicate TruthyString(x: Option<string>)
  {
    x.Some? && x.value != ""
  }

  predicate TruthyInt(x: Option<int>)
  {
    x.Some? && x.value != 0
  }

  predicate TruthyReal(x: Option<real>)
  {
    x.Some? && x.value != 0.0
  }

  /** `x or default` for an optional string. */
  function StringOr(x: Option<string>, default: string): (r: string)
    ensures x == None || x == Some("") ==> r == default
    ensures x.Some? && x.value != "" ==> r == x.value
  {
    if TruthyString(x) then x.value else default
  }

  /** `x or default` for an optional integer. */
  function IntOr(x: Option<int>, default: int): (r: int)
    ensures x == None || x == Some(0) ==> r == default
    ensures x.Some? && x.value != 0 ==> r == x.value
  {
    if TruthyInt(x) then x.value else default
  }

  /** `x or default` for an optional float. */
  function RealOr(x: Option<real>, default: real): (r: real)
    ensures x == None || x == Some(0.0) ==> r == default
    ensures x.Some? && x.value != 0.0 ==> r == x.value
  {
    if TruthyReal(x) then x.value else default
  }

  /** `x or y` for two optional strings: the first when truthy, otherwise the second as it is. */
  function OptionOr(x: Option<string>, y: Option<string>): (r: Option<string>)
    ensures TruthyString(r) <==> TruthyString(x) || TruthyString(y)
    ensures TruthyString(x) ==> r == x
    ensures !TruthyString(x) ==> r == y
  {
    if TruthyString(x) then x else y
  }
}
