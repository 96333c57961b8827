/** The bot's settings, with their defaults, and the ordered validation that
    refuses to start without the credentials the chosen provider needs. */
module Configuration {
  import opened Common

  datatype Config = Config(
    manifoldApiKey: string,
    manifoldUsername: string,
    targetCreator: string,
    geminiApiKey: Option<string>,
    openaiApiKey: Option<string>,
    anthropicApiKey: Option<string>,
    llmProvider: string,
    maxPositionSize: real,
    maxPortfolioRisk: real,
    minMarketLiquidity: real,
    maxMarketsOpen: int,
    checkInterval: int,
    minConfidence: real,
    maxBetAmount: real,
    logLevel: string,
    logFile: string)

  /** A configuration with only the two required settings given. */
  function DefaultConfig(manifoldApiKey: string, manifoldUsername: string): (c: Config)
    ensures c.manifoldApiKey == manifoldApiKey && c.manifoldUsername == manifoldUsername
    ensures c.targetCreator == "MikhailTal" && c.llmProvider == "gemini"
    ensures c.geminiApiKey.None? && c.openaiApiKey.None? && c.anthropicApiKey.None?
    ensures c.maxPositionSize == 100.0 && c.maxPortfolioRisk == 0.3 && c.maxMarketsOpen == 10
    ensures c.minMarketLiquidity == 50.0 && c.minConfidence == 0.6 && c.maxBetAmount == 50.0
    ensures c.checkInterval == 300 && c.logLevel == "INFO" && c.logFile == "bot.log"
  {
    Config(manifoldApiKey, manifoldUsername, "MikhailTal", None, None, None, "gemini",
           100.0, 0.3, 50.0, 10, 300, 0.6, 50.0, "INFO", "bot.log")
  }

  /** Python truthiness of an optional key: present and non-empty. */
  predicate HasKey(k: Option<string>) {
    k.Some? && k.value != ""
  }

  const ApiKeyRequired := "MANIFOLD_API_KEY is required"
  const UsernameRequired := "MANIFOLD_USERNAME is required"
  const GeminiKeyRequired := "GEMINI_API_KEY is required when using Gemini"
  const OpenAiKeyRequired := "OPENAI_API_KEY is required when using OpenAI"
  const AnthropicKeyRequired := "ANTHROPIC_API_KEY is required when using Anthropic"

  /** The first failing check, as the text of the `ValueError` it raises;
      `None` when the configuration is accepted. */
  function Validate(c: Config): (r: Option<string>)
    ensures c.manifoldApiKey == "" ==> r == Some(ApiKeyRequired)
    ensures c.manifoldApiKey != "" && c.manifoldUsername == "" ==> r == Some(UsernameRequired)
    ensures r.None? <==>
              c.manifoldApiKey != "" && c.manifoldUsername != ""
              && (c.llmProvider == "gemini" ==> HasKey(c.geminiApiKey))
              && (c.llmProvider == "openai" ==> HasKey(c.openaiApiKey))
              && (c.llmProvider == "anthropic" ==> HasKey(c.anthropicApiKey))
    ensures r.Some? ==> r.value in {ApiKeyRequired, UsernameRequired, GeminiKeyRequired,
                                    OpenAiKeyRequired, AnthropicKeyRequired}
  {
    if c.manifoldApiKey == "" then Some(ApiKeyRequired)
    else if c.manifoldUsername == "" then Some(UsernameRequired)
    else if c.llmProvider == "gemini" && !HasKey(c.geminiApiKey) then Some(GeminiKeyRequired)
    else if c.llmProvider == "openai" && !HasKey(c.openaiApiKey) then Some(OpenAiKeyRequired)
    else if c.llmProvider == "anthropic" && !HasKey(c.anthropicApiKey) then Some(AnthropicKeyRequired)
    else None
  }

  /** Each provider needs its own key and no other; a provider name outside
      the three known ones needs none. */
  lemma ProviderKeys(c: Config)
    requires c.manifoldApiKey != "" && c.manifoldUsername != ""
    ensures c.llmProvider == "gemini" ==> (Validate(c) == Some(GeminiKeyRequired) <==> !HasKey(c.geminiApiKey))
    ensures c.llmProvider == "openai" ==> (Validate(c) == Some(OpenAiKeyRequired) <==> !HasKey(c.openaiApiKey))
    ensures c.llmProvider == "anthropic" ==> (Validate(c) == Some(AnthropicKeyRequired) <==> !HasKey(c.anthropicApiKey))
    ensures c.llmProvider !in {"gemini", "openai", "anthropic"} ==> Validate(c).None?
  {
  }

  /** The defaults need a Gemini key: without one the default configuration
      is refused even when both credentials are given. */
  lemma DefaultsNeedGeminiKey(apiKey: string, username: string)
    requires apiKey != "" && username != ""
    ensures Validate(DefaultConfig(apiKey, username)) == Some(GeminiKeyRequired)
    ensures Validate(DefaultConfig(apiKey, username).(geminiApiKey := Some("k"))).None?
  {
  }
}
