/**
 * What the generators see of the outside world: which credentials are configured and what each
 * text-generation service answers. The HTTP request shapes, headers and URLs are not modelled;
 * a reply is represented by the text the code reads out of the response envelope.
 */
module Backends {

  /** The environment variables that hold credentials; true when the variable is set and non-empty. */
  datatype EnvVars = EnvVars(
    openRouterApiKey: bool,       // OPENROUTER_API_KEY
    publicOpenRouterKey: bool,    // NEXT_PUBLIC_OPENROUTER_KEY
    anthropicApiKey: bool,        // ANTHROPIC_API_KEY
    groqApiKey: bool,             // GROQ_API_KEY
    googleApiKey: bool,           // GOOGLE_API_KEY
    huggingFaceApiKey: bool)      // HUGGINGFACE_API_KEY

  /**
   * The result of one awaited call to a service: a 2xx reply with the text found in the envelope
   * ('' where the envelope lacks it), a non-2xx reply with its body text, or an exception
   * (network failure, unparsable JSON) with its message.
   */
  datatype NetOutcome = Reply(content: string) | HttpError(body: string) | Thrown(message: string)

  /** The outcome each service gives to the call made for the current request. */
  datatype Net = Net(
    openRouter: NetOutcome,
    anthropic: NetOutcome,
    groq: NetOutcome,
    gemini: NetOutcome,
    huggingFace: NetOutcome)
}
