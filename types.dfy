/**
 * The plugin's shared records: the user settings, the options passed to a provider, the outcome of a
 * summary request, and the default settings.
 */
module Types {
  import opened Wrappers

  /** The AI back ends a user can choose; only Ollama is implemented. */
  datatype ProviderId = Ollama | OpenAI | Anthropic

  /** The key under which a provider is stored in the settings and in the provider registry. */
  function ProviderKey(p: ProviderId): (key: string)
    ensures key in {"ollama", "openai", "anthropic"}
    ensures key == "ollama" <==> p == Ollama
  {
    match p
    case Ollama => "ollama"
    case OpenAI => "openai"
    case Anthropic => "anthropic"
  }

  /** Different providers are stored under different keys. */
  lemma ProviderKeyInjective(p: ProviderId, q: ProviderId)
    ensures ProviderKey(p) == ProviderKey(q) ==> p == q
  {
  }

  /** The user settings (`summaryLength` is the target word count). */
  datatype SummarySettings = SummarySettings(
    aiProvider: ProviderId,
    ollamaModel: string,
    summaryLength: int,
    excludeTemplates: bool,
    excludeDailyNotes: bool,
    dailyNotesPattern: string,
    templateFolders: seq<string>)

  /** What a provider is asked for: a target length and, optionally, a model. */
  datatype SummaryOptions = SummaryOptions(length: int, model: Option<string>)

  /** The outcome of a summary request: a success flag with an optional summary and error text. */
  datatype SummaryResult = SummaryResult(success: bool, summary: Option<string>, error: Option<string>)

  function Failure(message: string): SummaryResult {
    SummaryResult(false, None, Some(message))
  }

  const DefaultModel: string := "gemma3:4b"

  const DefaultSettings: SummarySettings := SummarySettings(
    Ollama,
    DefaultModel,
    500,
    true,
    true,
    "\\d{4}-\\d{2}-\\d{2}",
    ["Templates", "templates"])
}
