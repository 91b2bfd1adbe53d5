/**
 * The OpenAI chat-completions adapter: request body, status mapping, and the
 * inline decoder of `data: ` lines ending at the `[DONE]` sentinel.
 */
module OpenAI {
  import opened Wrappers
  import opened Strings
  import opened Context
  import opened Provider

  function Name(): string { "openai" }

  function Models(): seq<string> {
    ["gpt-4o", "gpt-4o-mini", "gpt-4-turbo", "gpt-3.5-turbo"]
  }

  /** `openAIRequest`; `maxTokens == 0` is Go's zero value, which `omitempty` drops. */
  datatype WireRequest = WireRequest(model: string, messages: seq<Message>, temperature: real, maxTokens: int, stream: bool)

  /** The JSON members `json.Marshal` writes for a body, following the struct tags. */
  function JsonMembers(b: WireRequest): set<JsonMember> {
    {ModelMember, MessagesMember, TemperatureMember, StreamMember} + (if b.maxTokens != 0 then {MaxTokensMember} else {})
  }

  /**
   * The request body: the messages verbatim, system messages included,
   * always a temperature and `stream: true`, and `max_tokens` exactly when
   * the request's value is positive.
   */
  function BuildRequest(req: ChatRequest): (b: WireRequest)
    ensures b.messages == req.messages && b.model == req.model
    ensures b.temperature == req.temperature && b.stream
    ensures {ModelMember, MessagesMember, TemperatureMember, StreamMember} <= JsonMembers(b)
    ensures MaxTokensMember in JsonMembers(b) <==> req.maxTokens > 0
    ensures MaxTokensMember in JsonMembers(b) ==> b.maxTokens == req.maxTokens
  {
    WireRequest(req.model, req.messages, req.temperature, if req.maxTokens > 0 then req.maxTokens else 0, true)
  }

  /** `handleHTTPError`: the body is always read, but only shown for the catch-all case. */
  function HandleHttpError(status: int, body: string): (r: HttpFailure)
    ensures r.bodyRead
    ensures r.error == InvalidApiKey <==> status == 401
    ensures r.error == RateLimited <==> status == 429
    ensures r.error == ServiceError <==> status >= 500
    ensures r.error.ApiError? <==> status != 401 && status != 429 && status < 500
    ensures r.error.ApiError? ==> r.error == ApiError(status, body)
  {
    var e :=
      if status == 401 then InvalidApiKey
      else if status == 429 then RateLimited
      else if status >= 500 then ServiceError
      else ApiError(status, body);
    HttpFailure(e, true)
  }

  /** A decoded chunk: the `delta.content` of every choice ("" when absent), or a JSON error. */
  datatype Chunk = Undecodable | Chunk(contents: seq<string>)

  const DataPrefix: string := "data: "
  const DoneSentinel: string := "[DONE]"

  predicate IsDone(line: string) {
    HasPrefix(line, DataPrefix) && TrimPrefix(line, DataPrefix) == DoneSentinel
  }

  /** The token a line yields, if it is a data line whose first choice has content. */
  function LineToken(line: string, decode: string -> Chunk): Option<string> {
    if line == "" || HasPrefix(line, ":") || !HasPrefix(line, DataPrefix) then None
    else
      match decode(TrimPrefix(line, DataPrefix))
      case Undecodable => None
      case Chunk(contents) => if |contents| > 0 && contents[0] != "" then Some(contents[0]) else None
  }

  /** The tokens a decoded chunk contributes: its first choice's content, unless empty or missing. */
  function ChunkTokens(c: Chunk): (r: seq<string>)
    ensures |r| <= 1
    ensures r != [] ==> c.Chunk? && c.contents != [] && r[0] == c.contents[0] != ""
    ensures c.Chunk? && c.contents != [] && c.contents[0] != "" ==> r == [c.contents[0]]
  {
    match c
    case Undecodable => []
    case Chunk(contents) => if |contents| > 0 && contents[0] != "" then [contents[0]] else []
  }

  /**
   * The tokens a stream carries, read without checkpoints: every `data: `
   * line before the first `[DONE]` contributes its chunk's tokens.
   */
  function StreamTokens(lines: seq<string>, decode: string -> Chunk): seq<string>
    decreases |lines|
  {
    if lines == [] || IsDone(lines[0]) then []
    else
      (if HasPrefix(lines[0], DataPrefix) then ChunkTokens(decode(TrimPrefix(lines[0], DataPrefix))) else [])
      + StreamTokens(lines[1..], decode)
  }

  /** `parseSSEStream` from checkpoint `tick` on. */
  function ParseStream(lines: seq<string>, decode: string -> Chunk, cancel: Cancellation, tick: nat, scanFailed: bool): (r: Decoding)
    ensures NoEmptyTokens(r.tokens)
    ensures StreamOutcome(r.outcome)
    ensures r.outcome == Some(Cancelled) ==> cancel.Some?
    ensures r.outcome == Some(StreamError) ==> scanFailed
    decreases |lines|
  {
    if lines == [] then
      if scanFailed then Decoding([], Some(if Done(cancel, tick) then Cancelled else StreamError))
      else Decoding([], None)
    else if Done(cancel, tick) then Decoding([], Some(Cancelled))
    else if IsDone(lines[0]) then Decoding([], None)
    else match LineToken(lines[0], decode)
      case None => ParseStream(lines[1..], decode, cancel, tick + 1, scanFailed)
      case Some(token) =>
        if Done(cancel, tick + 1) then Decoding([], Some(Cancelled))
        else
          var rest := ParseStream(lines[1..], decode, cancel, tick + 2, scanFailed);
          Decoding([token] + rest.tokens, rest.outcome)
  }

  /** `OpenAI.Chat`: checkpoint 0 is the wait for the response, the stream starts at checkpoint 1. */
  function Chat(req: ChatRequest, exchange: Exchange, decode: string -> Chunk, cancel: Cancellation): (r: ChatRun)
    ensures ClosedOnce(r.trace)
    ensures NoEmptyTokens(Sent(r.trace))
    ensures exchange.TransportFailed? ==>
      r == ChatRun([Close], Some(if Done(cancel, 0) then Cancelled else TransportError))
    ensures exchange.Response? && exchange.status != 200 ==>
      r == ChatRun([Close], Some(HandleHttpError(exchange.status, exchange.body).error))
    ensures exchange.Response? && exchange.status == 200 ==>
      StreamOutcome(r.outcome)
      && Sent(r.trace) == ParseStream(exchange.lines, decode, cancel, 1, exchange.scanFailed).tokens
      && r.outcome == ParseStream(exchange.lines, decode, cancel, 1, exchange.scanFailed).outcome
    ensures r.outcome == Some(Cancelled) ==> cancel.Some?
    ensures r.outcome == Some(StreamError) ==> exchange.Response? && exchange.scanFailed
  {
    var _ := BuildRequest(req);
    match exchange
    case TransportFailed => ChatRun([Close], Some(if Done(cancel, 0) then Cancelled else TransportError))
    case Response(status, body, lines, scanFailed) =>
      if status != 200 then ChatRun([Close], Some(HandleHttpError(status, body).error))
      else
        var d := ParseStream(lines, decode, cancel, 1, scanFailed);
        ChatRun(Deliver(d.tokens), d.outcome)
  }

  /** Nothing after the `[DONE]` line is looked at. */
  lemma {:induction false} DoneEndsStream(pre: seq<string>, done: string, post: seq<string>,
                                          decode: string -> Chunk, cancel: Cancellation, tick: nat, f: bool)
    requires IsDone(done)
    ensures ParseStream(pre + [done] + post, decode, cancel, tick, f)
         == ParseStream(pre + [done], decode, cancel, tick, false)
    decreases |pre|
  {
    if pre == [] {
      assert pre + [done] + post == [done] + post && pre + [done] == [done];
    } else {
      assert (pre + [done] + post)[0] == (pre + [done])[0] == pre[0];
      assert (pre + [done] + post)[1..] == pre[1..] + [done] + post;
      assert (pre + [done])[1..] == pre[1..] + [done];
      if !Done(cancel, tick) && !IsDone(pre[0]) {
        match LineToken(pre[0], decode)
        case None =>
          DoneEndsStream(pre[1..], done, post, decode, cancel, tick + 1, f);
        case Some(_) =>
          DoneEndsStream(pre[1..], done, post, decode, cancel, tick + 2, f);
      }
    }
  }

  /** Input `data: [DONE]` followed by a blank line forwards no token and succeeds. */
  lemma DoneOnly(decode: string -> Chunk)
    ensures ParseStream(["data: [DONE]", ""], decode, None, 1, false) == Decoding([], None)
  {
    assert IsDone("data: [DONE]") by {
      assert "data: [DONE]"[..6] == DataPrefix;
      assert "data: [DONE]"[6..] == DoneSentinel;
    }
  }

  /** Without cancellation the checkpoint numbering is irrelevant. */
  lemma {:induction false} TickIrrelevant(lines: seq<string>, decode: string -> Chunk, t: nat, t': nat, f: bool)
    ensures ParseStream(lines, decode, None, t, f) == ParseStream(lines, decode, None, t', f)
    decreases |lines|
  {
    if lines != [] && !IsDone(lines[0]) {
      TickIrrelevant(lines[1..], decode, t + 1, t' + 1, f);
      TickIrrelevant(lines[1..], decode, t + 2, t' + 2, f);
    }
  }

  /**
   * Token order is stream order: before any `[DONE]`, the tokens of two
   * consecutive stretches of input are the tokens of each, concatenated.
   */
  lemma {:induction false} TokensConcatenate(a: seq<string>, b: seq<string>, decode: string -> Chunk, f: bool)
    requires forall i :: 0 <= i < |a| ==> !IsDone(a[i])
    ensures ParseStream(a + b, decode, None, 0, f)
         == Decoding(ParseStream(a, decode, None, 0, false).tokens + ParseStream(b, decode, None, 0, f).tokens,
                     ParseStream(b, decode, None, 0, f).outcome)
    decreases |a|
  {
    if a == [] {
      assert a + b == b;
    } else {
      assert (a + b)[0] == a[0] && (a + b)[1..] == a[1..] + b;
      TokensConcatenate(a[1..], b, decode, f);
      TickIrrelevant(a[1..] + b, decode, 1, 0, f);
      TickIrrelevant(a[1..] + b, decode, 2, 0, f);
      TickIrrelevant(a[1..], decode, 1, 0, false);
      TickIrrelevant(a[1..], decode, 2, 0, false);
    }
  }

  /** Lines that are not `data: ` lines (blank, comments, other fields) can be deleted without effect. */
  lemma {:induction false} IgnoredLineInvisible(pre: seq<string>, line: string, post: seq<string>,
                                                decode: string -> Chunk, t: nat, f: bool)
    requires !HasPrefix(line, DataPrefix)
    ensures ParseStream(pre + [line] + post, decode, None, t, f) == ParseStream(pre + post, decode, None, t, f)
    decreases |pre|
  {
    if pre == [] {
      assert pre + [line] + post == [line] + post && pre + post == post;
      assert ([line] + post)[0] == line && ([line] + post)[1..] == post;
      assert !IsDone(line) && LineToken(line, decode) == None;
      TickIrrelevant(post, decode, t + 1, t, f);
    } else {
      assert (pre + [line] + post)[0] == pre[0] == (pre + post)[0];
      assert (pre + [line] + post)[1..] == pre[1..] + [line] + post;
      assert (pre + post)[1..] == pre[1..] + post;
      IgnoredLineInvisible(pre[1..], line, post, decode, t + 1, f);
      IgnoredLineInvisible(pre[1..], line, post, decode, t + 2, f);
    }
  }

  /**
   * A `data: ` line other than `[DONE]` forwards its chunk's first content,
   * if non-empty, ahead of everything the rest of the stream forwards.
   */
  lemma DataLineForwards(p: string, rest: seq<string>, decode: string -> Chunk, f: bool)
    requires p != DoneSentinel
    ensures ParseStream([DataPrefix + p] + rest, decode, None, 0, f)
         == Decoding(ChunkTokens(decode(p)) + ParseStream(rest, decode, None, 0, f).tokens,
                     ParseStream(rest, decode, None, 0, f).outcome)
  {
    var line := DataPrefix + p;
    assert line[..|DataPrefix|] == DataPrefix && line[|DataPrefix|..] == p;
    assert TrimPrefix(line, DataPrefix) == p;
    LineTokenIsChunk(line, decode);
    assert ([line] + rest)[0] == line && ([line] + rest)[1..] == rest;
    TickIrrelevant(rest, decode, 1, 0, f);
    TickIrrelevant(rest, decode, 2, 0, f);
  }

  /** A line's token is the one its chunk contributes, when it is a `data: ` line. */
  lemma LineTokenIsChunk(line: string, decode: string -> Chunk)
    ensures var ts := if HasPrefix(line, DataPrefix) then ChunkTokens(decode(TrimPrefix(line, DataPrefix))) else [];
      LineToken(line, decode) == if ts == [] then None else Some(ts[0])
  {
    if HasPrefix(line, DataPrefix) {
      assert line[0] == DataPrefix[0] != ':';
    }
  }

  /** Without cancellation, the tokens forwarded are exactly the reference reading's. */
  lemma {:induction false} StreamIsReference(lines: seq<string>, decode: string -> Chunk, t: nat, f: bool)
    ensures ParseStream(lines, decode, None, t, f).tokens == StreamTokens(lines, decode)
    decreases |lines|
  {
    if lines != [] && !IsDone(lines[0]) {
      LineTokenIsChunk(lines[0], decode);
      StreamIsReference(lines[1..], decode, t + 1, f);
      StreamIsReference(lines[1..], decode, t + 2, f);
    }
  }

  /** An uncancelled call answered with 200 sends exactly the reference tokens, then closes. */
  lemma ChatForwardsStream(req: ChatRequest, body: string, lines: seq<string>, decode: string -> Chunk, f: bool)
    ensures Sent(Chat(req, Response(200, body, lines, f), decode, None).trace) == StreamTokens(lines, decode)
    ensures !f ==> Chat(req, Response(200, body, lines, f), decode, None).outcome == None
  {
    StreamIsReference(lines, decode, 1, f);
    EndOfInputSucceeds(lines, decode, 1);
  }

  /** Reaching the end of input without `[DONE]` is a success when nothing was cancelled or failed. */
  lemma {:induction false} EndOfInputSucceeds(lines: seq<string>, decode: string -> Chunk, t: nat)
    ensures ParseStream(lines, decode, None, t, false).outcome == None
    decreases |lines|
  {
    if lines != [] && !IsDone(lines[0]) {
      EndOfInputSucceeds(lines[1..], decode, t + 1);
      EndOfInputSucceeds(lines[1..], decode, t + 2);
    }
  }

  /**
   * Cancellation only cuts the token stream short; a call that does not
   * report it forwarded exactly what an uncancelled call forwards.
   */
  lemma {:induction false} CancellationTruncates(lines: seq<string>, decode: string -> Chunk, t: nat, k: nat, f: bool)
    ensures ParseStream(lines, decode, Some(k), t, f).tokens <= ParseStream(lines, decode, None, t, f).tokens
    ensures ParseStream(lines, decode, Some(k), t, f).outcome != Some(Cancelled) ==>
      ParseStream(lines, decode, Some(k), t, f) == ParseStream(lines, decode, None, t, f)
    decreases |lines|
  {
    if lines != [] && !Done(Some(k), t) && !IsDone(lines[0]) {
      CancellationTruncates(lines[1..], decode, t + 1, k, f);
      CancellationTruncates(lines[1..], decode, t + 2, k, f);
    }
  }

  /** A failed read while the context is cancelled reports the cancellation, not the read error. */
  lemma CancellationWinsOverReadError(decode: string -> Chunk, k: nat, t: nat)
    requires k <= t
    ensures ParseStream([], decode, Some(k), t, true) == Decoding([], Some(Cancelled))
  {
  }
}
