/**
 * The error keys of `VALIDATION_ERRORS` and the system prompt. The keys are kept
 * abstract; `LibText` gives the texts of lib/utils/constants.ts.
 */
module Constants {
  import opened Base

  /** The members of `VALIDATION_ERRORS` that the core throws or responds with. */
  datatype ErrorKey =
    | InternalServerError
    | InvalidJson
    | InvalidModel
    | ModelMissingContent
    | ModelRequestFail
    | ModelNotConfigured
    | ModelNotAvailable
    | PromptInvalid
    | UnknownError

  /** The texts of lib/utils/constants.ts, which has every key. */
  function LibText(k: ErrorKey): string {
    match k
    case InternalServerError => "Internal server error"
    case InvalidJson => "Invalid JSON payload"
    case InvalidModel => "Ollama model not specified. Set OLLAMA_MODEL env variable."
    case ModelMissingContent => "Invalid response from Ollama: missing content"
    case ModelRequestFail => "Unable to connect to Ollama. Make sure the instance is running on http://localhost:11434"
    case ModelNotConfigured => "Ollama model configuration missing in env file"
    case ModelNotAvailable => "Specified Ollama model is not available. Ensure Ollama is serving"
    case PromptInvalid => "Prompt must be a non-empty string"
    case UnknownError => "An unknown error occurred"
  }

  /** `OLLAMA_MODEL` is truthy: set and non-empty. */
  predicate IsConfigured(env: Option<string>) {
    env.Some? && env.value != ""
  }

  /** SYSTEM_PROMPT of lib/utils/constants.ts. */
  const SystemPrompt: string := "You are Nirvana, a secure, mindful local AI assistant. Respond with a sense of humour"
}
