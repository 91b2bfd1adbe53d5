/**
 * The `Provider` interface and the factory `New`: the two adapters as the
 * variants of one datatype, and dispatch of `Name`, `Models` and `Chat`.
 */
module Factory {
  import opened Wrappers
  import opened Context
  import opened Provider
  import Config
  import OpenAI
  import Anthropic

  /** A configured adapter: which vendor, holding which API key. */
  datatype Backend = OpenAIBackend(apiKey: string) | AnthropicBackend(apiKey: string)

  datatype FactoryError = MissingApiKey(provider: string) | UnknownProvider(name: string)

  /**
   * `provider.New`. The key is looked up before the name is examined, so a
   * provider the configuration does not list behaves like an empty key.
   */
  function New(name: string, cfg: Config.Config): (r: Result<Backend, FactoryError>)
    ensures r.Ok? <==> (name == "openai" || name == "anthropic") && Config.GetApiKey(cfg, name) != ""
    ensures r == Err(UnknownProvider(name)) <==> name != "openai" && name != "anthropic"
    ensures r == Err(MissingApiKey(name)) <==>
      (name == "openai" || name == "anthropic") && Config.GetApiKey(cfg, name) == ""
    ensures r.Ok? ==> r.value.apiKey == Config.GetApiKey(cfg, name) && Name(r.value) == name
  {
    var apiKey := Config.GetApiKey(cfg, name);
    if name == "openai" then
      if apiKey == "" then Err(MissingApiKey(name)) else Ok(OpenAIBackend(apiKey))
    else if name == "anthropic" then
      if apiKey == "" then Err(MissingApiKey(name)) else Ok(AnthropicBackend(apiKey))
    else Err(UnknownProvider(name))
  }

  function Name(b: Backend): string {
    match b
    case OpenAIBackend(_) => OpenAI.Name()
    case AnthropicBackend(_) => Anthropic.Name()
  }

  function Models(b: Backend): seq<string> {
    match b
    case OpenAIBackend(_) => OpenAI.Models()
    case AnthropicBackend(_) => Anthropic.Models()
  }

  /** The vendors' JSON decoders, kept abstract. */
  datatype Decoders = Decoders(openai: string -> OpenAI.Chunk, anthropic: string -> Anthropic.Payload)

  /**
   * `Provider.Chat`: whichever adapter runs, the channel is closed exactly
   * once, after the last token, and no empty token is ever sent.
   */
  function Chat(b: Backend, req: ChatRequest, exchange: Exchange, decoders: Decoders, cancel: Cancellation): (r: ChatRun)
    ensures ClosedOnce(r.trace)
    ensures NoEmptyTokens(Sent(r.trace))
    ensures r.outcome == Some(Cancelled) ==> cancel.Some?
    ensures r.outcome == Some(StreamError) ==> exchange.Response? && exchange.scanFailed
    ensures b.OpenAIBackend? ==> r == OpenAI.Chat(req, exchange, decoders.openai, cancel)
    ensures b.AnthropicBackend? ==> r == Anthropic.Chat(req, exchange, decoders.anthropic, cancel)
  {
    match b
    case OpenAIBackend(_) => OpenAI.Chat(req, exchange, decoders.openai, cancel)
    case AnthropicBackend(_) => Anthropic.Chat(req, exchange, decoders.anthropic, cancel)
  }

  /** Both adapters map every status to the same error kind; they differ only in whether the body is read. */
  lemma VendorsAgreeOnStatus(status: int, body: string)
    ensures OpenAI.HandleHttpError(status, body).error == Anthropic.HandleHttpError(status, body).error
  {
  }

  /** Only 200 reaches the decoder: any other status, 2xx included, fails with nothing sent. */
  lemma OnlyOkIsStreamed(b: Backend, req: ChatRequest, status: int, body: string, lines: seq<string>,
                         f: bool, decoders: Decoders, cancel: Cancellation)
    requires status != 200
    ensures Chat(b, req, Response(status, body, lines, f), decoders, cancel).trace == [Close]
    ensures Chat(b, req, Response(status, body, lines, f), decoders, cancel).outcome.Some?
  {
  }
}
