/**
 * The vendor-independent vocabulary of the provider package: messages, the
 * chat request, the error kinds `Chat` returns, the HTTP exchange as the
 * adapters see it, and the channel trace a `Chat` call leaves behind.
 */
module Provider {
  import opened Wrappers

  const SystemRole: string := "system"
  const UserRole: string := "user"
  const AssistantRole: string := "assistant"

  datatype Message = Message(role: string, content: string)

  /** `ChatRequest`; the temperature is compared with zero and nothing else. */
  datatype ChatRequest = ChatRequest(messages: seq<Message>, model: string, temperature: real, maxTokens: int)

  /** The errors `Chat` returns; the wording of the messages is not modelled. */
  datatype ChatError =
    | InvalidApiKey                      // status 401
    | RateLimited                        // status 429
    | ServiceError                       // status 500 and above
    | ApiError(status: int, body: string) // every other status but 200
    | TransportError                     // the request could not be sent
    | Cancelled                          // the context's error
    | StreamError                        // the scanner failed mid-stream

  /**
   * The top-level members of a JSON request body: "model", "messages",
   * "system", "max_tokens", "temperature" and "stream".
   */
  datatype JsonMember = ModelMember | MessagesMember | SystemMember | MaxTokensMember | TemperatureMember | StreamMember

  /** What the HTTP round trip produced: no response, or a status, the raw body and its lines. */
  datatype Exchange =
    | TransportFailed
    | Response(status: int, body: string, lines: seq<string>, scanFailed: bool)

  /** What `handleHTTPError` returns, and whether it consumed the response body. */
  datatype HttpFailure = HttpFailure(error: ChatError, bodyRead: bool)

  /** One operation on the output channel. */
  datatype Step = Send(token: string) | Close

  /** A `Chat` call: the operations on its channel, and its error (`None` is nil). */
  datatype ChatRun = ChatRun(trace: seq<Step>, outcome: Option<ChatError>)

  /** The tokens a stream decoder forwarded and how it ended. */
  datatype Decoding = Decoding(tokens: seq<string>, outcome: Option<ChatError>)

  /** The channel saw sends only, then exactly one close, as its last operation. */
  predicate ClosedOnce(trace: seq<Step>) {
    && |trace| > 0
    && trace[|trace| - 1] == Close
    && forall i :: 0 <= i < |trace| - 1 ==> trace[i].Send?
  }

  /** The tokens sent on the channel, in order. */
  function Sent(trace: seq<Step>): seq<string>
  {
    if trace == [] then []
    else if trace[0].Send? then [trace[0].token] + Sent(trace[1..])
    else Sent(trace[1..])
  }

  /** Forwarding `tokens` through a channel that `defer close(stream)` closes on return. */
  function Deliver(tokens: seq<string>): (trace: seq<Step>)
    ensures ClosedOnce(trace)
    ensures Sent(trace) == tokens
    ensures |trace| == |tokens| + 1
  {
    if tokens == [] then [Close]
    else
      var rest := Deliver(tokens[1..]);
      assert ([Send(tokens[0])] + rest)[1..] == rest;
      [Send(tokens[0])] + rest
  }

  predicate NoEmptyTokens(tokens: seq<string>) {
    forall i :: 0 <= i < |tokens| ==> tokens[i] != ""
  }

  /** The outcomes a stream decoder can end with. */
  predicate StreamOutcome(outcome: Option<ChatError>) {
    outcome == None || outcome == Some(Cancelled) || outcome == Some(StreamError)
  }
}
