/** The immutable configuration read once at start-up from the environment. */
module Configuration {
  import opened Wrappers
  import opened Pricing
  import opened LegResolver

  /** The starting point used when no fixed origin is configured. */
  const DefaultFixedOrigin: Location := "Harare, Zimbabwe"

  datatype Config = Config(fixedOrigin: Location, apiKeyPresent: bool, rates: Rates)

  /**
   * The configuration built from the two environment variables (absent or present with a value):
   * the fixed origin falls back to the default only when the variable is absent, and an empty
   * credential counts as no credential. What this means for a request is proved in the
   * request handler's module.
   */
  function ConfigFromEnvironment(fixedOriginVar: Option<string>, apiKeyVar: Option<string>): Config
  {
    Config(fixedOriginVar.GetOr(DefaultFixedOrigin), apiKeyVar.Some? && |apiKeyVar.value| > 0, SourceRates)
  }
}
