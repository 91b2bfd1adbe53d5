/**
 * The Anthropic messages adapter: system-message extraction, the
 * `max_tokens` default, optional fields, status mapping, and the inline
 * decoder driven by the current `event: ` name.
 */
module Anthropic {
  import opened Wrappers
  import opened Strings
  import opened Context
  import opened Provider

  const DefaultMaxTokens: int := 4096

  function Name(): string { "anthropic" }

  function Models(): seq<string> {
    ["claude-sonnet-4-20250514", "claude-3-5-haiku-20241022", "claude-3-opus-20240229"]
  }

  /** `anthropicRequest`; `system` and `temperature` carry `omitempty`. */
  datatype WireRequest = WireRequest(
    model: string, messages: seq<Message>, system: string, maxTokens: int, temperature: real, stream: bool)

  function JsonMembers(b: WireRequest): set<JsonMember> {
    {ModelMember, MessagesMember, MaxTokensMember, StreamMember}
      + (if b.system != "" then {SystemMember} else {})
      + (if b.temperature != 0.0 then {TemperatureMember} else {})
  }

  /** The loop over the request messages: system contents accumulate, the others are kept in order. */
  function SplitSystem(msgs: seq<Message>, system: string, kept: seq<Message>): (string, seq<Message>)
    decreases |msgs|
  {
    if msgs == [] then (system, kept)
    else if msgs[0].role == SystemRole then
      SplitSystem(msgs[1..], Accumulate(system, msgs[0].content, "\n\n"), kept)
    else SplitSystem(msgs[1..], system, kept + [msgs[0]])
  }

  // ----- Reference definitions for the split -----

  function NonSystem(msgs: seq<Message>): seq<Message> {
    if msgs == [] then []
    else if msgs[0].role == SystemRole then NonSystem(msgs[1..])
    else [msgs[0]] + NonSystem(msgs[1..])
  }

  function SystemContents(msgs: seq<Message>): seq<string> {
    if msgs == [] then []
    else if msgs[0].role == SystemRole then [msgs[0].content] + SystemContents(msgs[1..])
    else SystemContents(msgs[1..])
  }

  lemma {:induction false} SplitSystemSpec(msgs: seq<Message>, system: string, kept: seq<Message>)
    ensures SplitSystem(msgs, system, kept) ==
      (AccumulateAll(system, SystemContents(msgs), "\n\n"), kept + NonSystem(msgs))
    decreases |msgs|
  {
    if msgs == [] {
      assert kept + [] == kept;
    } else {
      if msgs[0].role == SystemRole {
        SplitSystemSpec(msgs[1..], Accumulate(system, msgs[0].content, "\n\n"), kept);
        assert SystemContents(msgs)[0] == msgs[0].content;
        assert SystemContents(msgs)[1..] == SystemContents(msgs[1..]);
      } else {
        SplitSystemSpec(msgs[1..], system, kept + [msgs[0]]);
        assert kept + [msgs[0]] + NonSystem(msgs[1..]) == kept + NonSystem(msgs);
      }
    }
  }

  /**
   * The system field is the system messages' contents in their original
   * order, joined by a blank line (leading empty contents leave no
   * separator); `messages` is every other message, order kept.
   */
  lemma SystemExtraction(msgs: seq<Message>)
    ensures SplitSystem(msgs, "", []).0 == Join(DropLeadingEmpty(SystemContents(msgs)), "\n\n")
    ensures SplitSystem(msgs, "", []).1 == NonSystem(msgs)
  {
    SplitSystemSpec(msgs, "", []);
    AccumulateAllIsJoin(SystemContents(msgs), "\n\n");
  }

  lemma {:induction false} NonSystemFiltered(msgs: seq<Message>)
    ensures forall i :: 0 <= i < |NonSystem(msgs)| ==> NonSystem(msgs)[i].role != SystemRole
    ensures |NonSystem(msgs)| + |SystemContents(msgs)| == |msgs|
  {
    if msgs != [] {
      NonSystemFiltered(msgs[1..]);
    }
  }

  /**
   * The request body. `max_tokens` and `stream: true` are always sent;
   * `temperature` only when the request's is positive, `system` only when
   * some system content was collected.
   */
  function BuildRequest(req: ChatRequest): (b: WireRequest)
    ensures b.stream && b.model == req.model
    ensures b.maxTokens > 0
    ensures req.maxTokens > 0 ==> b.maxTokens == req.maxTokens
    ensures req.maxTokens <= 0 ==> b.maxTokens == DefaultMaxTokens
    ensures {ModelMember, MessagesMember, MaxTokensMember, StreamMember} <= JsonMembers(b)
    ensures TemperatureMember in JsonMembers(b) <==> req.temperature > 0.0
    ensures TemperatureMember in JsonMembers(b) ==> b.temperature == req.temperature
    ensures SystemMember in JsonMembers(b) <==> b.system != ""
  {
    var split := SplitSystem(req.messages, "", []);
    var maxTokens := if req.maxTokens <= 0 then DefaultMaxTokens else req.maxTokens;
    WireRequest(req.model, split.1, split.0, maxTokens, if req.temperature > 0.0 then req.temperature else 0.0, true)
  }

  /** The body's `system` and `messages` are the split of the request's messages. */
  lemma RequestMessages(req: ChatRequest)
    ensures BuildRequest(req).system == Join(DropLeadingEmpty(SystemContents(req.messages)), "\n\n")
    ensures BuildRequest(req).messages == NonSystem(req.messages)
  {
    SystemExtraction(req.messages);
  }

  /** `handleHTTPError`: unlike the OpenAI adapter it reads the body only for the catch-all case. */
  function HandleHttpError(status: int, body: string): (r: HttpFailure)
    ensures r.error == InvalidApiKey <==> status == 401
    ensures r.error == RateLimited <==> status == 429
    ensures r.error == ServiceError <==> status >= 500
    ensures r.error.ApiError? <==> status != 401 && status != 429 && status < 500
    ensures r.error.ApiError? ==> r.error == ApiError(status, body)
    ensures r.bodyRead <==> r.error.ApiError?
  {
    if status == 401 then HttpFailure(InvalidApiKey, false)
    else if status == 429 then HttpFailure(RateLimited, false)
    else if status >= 500 then HttpFailure(ServiceError, false)
    else HttpFailure(ApiError(status, body), true)
  }

  /** A decoded `data:` payload of a delta event: JSON error, no `delta` member, or the delta decoded. */
  datatype Payload = Undecodable | NoDelta | Delta(delta: DeltaBody)

  /** The `delta` member decoded as `anthropicDelta`, or a JSON error. */
  datatype DeltaBody = MalformedDelta | DeltaText(text: string)

  const EventPrefix: string := "event: "
  const DataPrefix: string := "data: "
  const StopEvent: string := "message_stop"
  const DeltaEvent: string := "content_block_delta"

  /** The current event name after a line: `event: ` sets it, untrimmed; a blank line clears it. */
  function NextName(name: string, line: string): (r: string)
    ensures HasPrefix(line, EventPrefix) ==> line == EventPrefix + r
    ensures line == "" ==> r == ""
    ensures line != "" && !HasPrefix(line, EventPrefix) ==> r == name
  {
    if HasPrefix(line, EventPrefix) then TrimPrefix(line, EventPrefix)
    else if line == "" then ""
    else name
  }

  /** The token a `data: ` line yields under event name `name`. */
  function DeltaToken(name: string, line: string, decode: string -> Payload): Option<string> {
    if name != DeltaEvent then None
    else
      match decode(TrimPrefix(line, DataPrefix))
      case Delta(DeltaText(text)) => if text != "" then Some(text) else None
      case _ => None
  }

  predicate IsData(line: string) {
    !HasPrefix(line, EventPrefix) && HasPrefix(line, DataPrefix)
  }

  /**
   * The tokens a delta payload contributes: its text, when the payload
   * decodes, has a `delta` that decodes, and the text is not empty.
   */
  function PayloadTokens(pl: Payload): (r: seq<string>)
    ensures r != [] <==> pl.Delta? && pl.delta.DeltaText? && pl.delta.text != ""
    ensures r != [] ==> r == [pl.delta.text]
  {
    match pl
    case Delta(DeltaText(text)) => if text != "" then [text] else []
    case _ => []
  }

  /**
   * The tokens a stream carries from event name `name` on, read without
   * checkpoints: each `data: ` line under `content_block_delta` contributes
   * its payload's tokens, up to the first `data: ` line under `message_stop`.
   */
  function StreamTokens(lines: seq<string>, name: string, decode: string -> Payload): seq<string>
    decreases |lines|
  {
    if lines == [] then []
    else if IsData(lines[0]) && name == StopEvent then []
    else
      (if IsData(lines[0]) && name == DeltaEvent then PayloadTokens(decode(TrimPrefix(lines[0], DataPrefix))) else [])
      + StreamTokens(lines[1..], NextName(name, lines[0]), decode)
  }

  /** The event name in force after reading `lines` from `name`. */
  function NameAfter(lines: seq<string>, name: string): string
    decreases |lines|
  {
    if lines == [] then name else NameAfter(lines[1..], NextName(name, lines[0]))
  }

  /** No `data: ` line of `lines` is read under `message_stop`, starting from `name`. */
  predicate NoStop(lines: seq<string>, name: string)
    decreases |lines|
  {
    lines == [] || (!(IsData(lines[0]) && name == StopEvent) && NoStop(lines[1..], NextName(name, lines[0])))
  }

  /** `parseSSEStream` from checkpoint `tick` on, with `name` the current event name. */
  function ParseStream(lines: seq<string>, name: string, decode: string -> Payload,
                       cancel: Cancellation, tick: nat, scanFailed: bool): (r: Decoding)
    ensures NoEmptyTokens(r.tokens)
    ensures StreamOutcome(r.outcome)
    ensures r.outcome == Some(Cancelled) ==> cancel.Some?
    ensures r.outcome == Some(StreamError) ==> scanFailed
    decreases |lines|
  {
    if lines == [] then
      if scanFailed then Decoding([], Some(if Done(cancel, tick) then Cancelled else StreamError))
      else Decoding([], None)
    else if Done(cancel, tick) then Decoding([], Some(Cancelled))
    else
      var line := lines[0];
      if IsData(line) && name == StopEvent then Decoding([], None)
      else
        var next := NextName(name, line);
        match (if IsData(line) then DeltaToken(name, line, decode) else None)
        case None => ParseStream(lines[1..], next, decode, cancel, tick + 1, scanFailed)
        case Some(token) =>
          if Done(cancel, tick + 1) then Decoding([], Some(Cancelled))
          else
            var rest := ParseStream(lines[1..], next, decode, cancel, tick + 2, scanFailed);
            Decoding([token] + rest.tokens, rest.outcome)
  }

  /** `Anthropic.Chat`: checkpoint 0 is the wait for the response, the stream starts at checkpoint 1. */
  function Chat(req: ChatRequest, exchange: Exchange, decode: string -> Payload, cancel: Cancellation): (r: ChatRun)
    ensures ClosedOnce(r.trace)
    ensures NoEmptyTokens(Sent(r.trace))
    ensures exchange.TransportFailed? ==>
      r == ChatRun([Close], Some(if Done(cancel, 0) then Cancelled else TransportError))
    ensures exchange.Response? && exchange.status != 200 ==>
      r == ChatRun([Close], Some(HandleHttpError(exchange.status, exchange.body).error))
    ensures exchange.Response? && exchange.status == 200 ==>
      StreamOutcome(r.outcome)
      && Sent(r.trace) == ParseStream(exchange.lines, "", decode, cancel, 1, exchange.scanFailed).tokens
      && r.outcome == ParseStream(exchange.lines, "", decode, cancel, 1, exchange.scanFailed).outcome
    ensures r.outcome == Some(Cancelled) ==> cancel.Some?
    ensures r.outcome == Some(StreamError) ==> exchange.Response? && exchange.scanFailed
  {
    var _ := BuildRequest(req);
    match exchange
    case TransportFailed => ChatRun([Close], Some(if Done(cancel, 0) then Cancelled else TransportError))
    case Response(status, body, lines, scanFailed) =>
      if status != 200 then ChatRun([Close], Some(HandleHttpError(status, body).error))
      else
        var d := ParseStream(lines, "", decode, cancel, 1, scanFailed);
        ChatRun(Deliver(d.tokens), d.outcome)
  }

  /** The two-line frame that ends a stream: `event: message_stop` followed by any `data: ` line. */
  predicate IsStopFrame(ev: string, data: string) {
    ev == EventPrefix + StopEvent && HasPrefix(data, DataPrefix)
  }

  /** Nothing after the stop frame is looked at, whatever came before it. */
  lemma {:induction false} StopEndsStream(pre: seq<string>, ev: string, data: string, post: seq<string>, name: string,
                                          decode: string -> Payload, cancel: Cancellation, tick: nat, f: bool)
    requires IsStopFrame(ev, data)
    ensures ParseStream(pre + [ev, data] + post, name, decode, cancel, tick, f)
         == ParseStream(pre + [ev, data], name, decode, cancel, tick, false)
    decreases |pre|
  {
    assert HasPrefix(ev, EventPrefix) && TrimPrefix(ev, EventPrefix) == StopEvent by {
      assert ev[..|EventPrefix|] == EventPrefix;
    }
    assert IsData(data) by {
      assert data[0] == 'd';
      assert !HasPrefix(data, EventPrefix);
    }
    if pre == [] {
      assert pre + [ev, data] + post == [ev, data] + post && pre + [ev, data] == [ev, data];
      assert ([ev, data] + post)[1..] == [data] + post && [ev, data][1..] == [data];
      assert ([data] + post)[0] == data;
    } else {
      assert (pre + [ev, data] + post)[0] == (pre + [ev, data])[0] == pre[0];
      assert (pre + [ev, data] + post)[1..] == pre[1..] + [ev, data] + post;
      assert (pre + [ev, data])[1..] == pre[1..] + [ev, data];
      var line := pre[0];
      if !Done(cancel, tick) && !(IsData(line) && name == StopEvent) {
        var next := NextName(name, line);
        StopEndsStream(pre[1..], ev, data, post, next, decode, cancel, tick + 1, f);
        StopEndsStream(pre[1..], ev, data, post, next, decode, cancel, tick + 2, f);
      }
    }
  }

  /** Without cancellation the checkpoint numbering is irrelevant. */
  lemma {:induction false} TickIrrelevant(lines: seq<string>, name: string, decode: string -> Payload, t: nat, t': nat, f: bool)
    ensures ParseStream(lines, name, decode, None, t, f) == ParseStream(lines, name, decode, None, t', f)
    decreases |lines|
  {
    if lines != [] {
      var next := NextName(name, lines[0]);
      TickIrrelevant(lines[1..], next, decode, t + 1, t' + 1, f);
      TickIrrelevant(lines[1..], next, decode, t + 2, t' + 2, f);
    }
  }

  /**
   * A line that is not blank and is neither an `event: ` nor a `data: ` line
   * changes neither the tokens nor the current event name: deleting it
   * changes nothing.
   */
  lemma {:induction false} OtherLineInvisible(pre: seq<string>, line: string, post: seq<string>, name: string,
                                              decode: string -> Payload, f: bool)
    requires line != "" && !HasPrefix(line, EventPrefix) && !HasPrefix(line, DataPrefix)
    ensures ParseStream(pre + [line] + post, name, decode, None, 0, f) == ParseStream(pre + post, name, decode, None, 0, f)
    decreases |pre|
  {
    if pre == [] {
      assert pre + [line] + post == [line] + post && pre + post == post;
      assert ([line] + post)[0] == line && ([line] + post)[1..] == post;
      TickIrrelevant(post, name, decode, 1, 0, f);
    } else {
      assert (pre + [line] + post)[0] == (pre + post)[0] == pre[0];
      assert (pre + [line] + post)[1..] == pre[1..] + [line] + post;
      assert (pre + post)[1..] == pre[1..] + post;
      if !(IsData(pre[0]) && name == StopEvent) {
        var next := NextName(name, pre[0]);
        OtherLineInvisible(pre[1..], line, post, next, decode, f);
        TickIrrelevant(pre[1..] + [line] + post, next, decode, 1, 0, f);
        TickIrrelevant(pre[1..] + post, next, decode, 1, 0, f);
        TickIrrelevant(pre[1..] + [line] + post, next, decode, 2, 0, f);
        TickIrrelevant(pre[1..] + post, next, decode, 2, 0, f);
      }
    }
  }

  /**
   * Under an event name other than `content_block_delta` and
   * `message_stop`, a `data: ` line forwards nothing and the stream goes on.
   */
  lemma OtherEventIgnored(name: string, data: string, post: seq<string>, decode: string -> Payload, f: bool)
    requires name != DeltaEvent && name != StopEvent && IsData(data)
    ensures ParseStream([data] + post, name, decode, None, 0, f) == ParseStream(post, name, decode, None, 0, f)
  {
    assert ([data] + post)[0] == data && ([data] + post)[1..] == post;
    assert NextName(name, data) == name by {
      assert data[0] == 'd';
    }
    TickIrrelevant(post, name, decode, 1, 0, f);
  }

  /** The name is not trimmed: `event:  content_block_delta` (two spaces) names a different event. */
  lemma UntrimmedNameNotDelta(data: string, decode: string -> Payload)
    requires IsData(data)
    ensures ParseStream(["event:  content_block_delta", data], "", decode, None, 0, false) == Decoding([], None)
  {
    var ev := "event:  content_block_delta";
    assert HasPrefix(ev, EventPrefix) by { assert ev[..7] == EventPrefix; }
    assert NextName("", ev) == " content_block_delta" by {
      assert ev[7..] == " content_block_delta";
    }
    assert ["event:  content_block_delta", data][1..] == [data];
    assert !HasPrefix(data, EventPrefix) by { assert data[0] == 'd'; }
    assert NextName(" content_block_delta", data) == " content_block_delta";
    assert ParseStream([data], " content_block_delta", decode, None, 1, false)
        == ParseStream([], " content_block_delta", decode, None, 2, false);
  }

  /** A blank line ends the event: whatever name was current, the next line is read under no name. */
  lemma BlankLineResets(rest: seq<string>, name: string, decode: string -> Payload, f: bool)
    ensures ParseStream([""] + rest, name, decode, None, 0, f) == ParseStream(rest, "", decode, None, 0, f)
  {
    assert ([""] + rest)[0] == "" && ([""] + rest)[1..] == rest;
    assert !IsData("");
    TickIrrelevant(rest, "", decode, 1, 0, f);
  }

  /**
   * An `event: content_block_delta` line and a `data: ` line forward the
   * payload's text, if it decodes and is not empty, ahead of everything
   * the rest of the stream forwards under the same event name.
   */
  lemma DeltaFrameForwards(p: string, rest: seq<string>, name: string, decode: string -> Payload, f: bool)
    ensures ParseStream([EventPrefix + DeltaEvent, DataPrefix + p] + rest, name, decode, None, 0, f)
         == Decoding(PayloadTokens(decode(p)) + ParseStream(rest, DeltaEvent, decode, None, 0, f).tokens,
                     ParseStream(rest, DeltaEvent, decode, None, 0, f).outcome)
  {
    var ev := EventPrefix + DeltaEvent;
    var data := DataPrefix + p;
    var lines := [ev, data] + rest;
    assert ev[..|EventPrefix|] == EventPrefix && ev[|EventPrefix|..] == DeltaEvent;
    assert NextName(name, ev) == DeltaEvent;
    assert !IsData(ev);
    assert data[..|DataPrefix|] == DataPrefix && data[|DataPrefix|..] == p;
    assert IsData(data) && TrimPrefix(data, DataPrefix) == p by {
      assert data[0] == 'd';
    }
    assert NextName(DeltaEvent, data) == DeltaEvent;
    assert lines[0] == ev && lines[1..] == [data] + rest;
    assert ([data] + rest)[0] == data && ([data] + rest)[1..] == rest;
    TickIrrelevant(rest, DeltaEvent, decode, 2, 0, f);
    TickIrrelevant(rest, DeltaEvent, decode, 3, 0, f);
  }

  /**
   * Token order is stream order: before any stop frame, the tokens of two
   * consecutive stretches of input are the tokens of each, the second read
   * under the event name the first leaves in force.
   */
  lemma {:induction false} TokensConcatenate(a: seq<string>, b: seq<string>, name: string, decode: string -> Payload, f: bool)
    requires NoStop(a, name)
    ensures ParseStream(a + b, name, decode, None, 0, f)
         == Decoding(ParseStream(a, name, decode, None, 0, false).tokens
                     + ParseStream(b, NameAfter(a, name), decode, None, 0, f).tokens,
                     ParseStream(b, NameAfter(a, name), decode, None, 0, f).outcome)
    decreases |a|
  {
    if a == [] {
      assert a + b == b;
    } else {
      assert (a + b)[0] == a[0] && (a + b)[1..] == a[1..] + b;
      var next := NextName(name, a[0]);
      TokensConcatenate(a[1..], b, next, decode, f);
      TickIrrelevant(a[1..] + b, next, decode, 1, 0, f);
      TickIrrelevant(a[1..] + b, next, decode, 2, 0, f);
      TickIrrelevant(a[1..], next, decode, 1, 0, false);
      TickIrrelevant(a[1..], next, decode, 2, 0, false);
    }
  }

  /** Without cancellation, the tokens forwarded are exactly the reference reading's. */
  lemma {:induction false} StreamIsReference(lines: seq<string>, name: string, decode: string -> Payload, t: nat, f: bool)
    ensures ParseStream(lines, name, decode, None, t, f).tokens == StreamTokens(lines, name, decode)
    decreases |lines|
  {
    if lines != [] {
      var next := NextName(name, lines[0]);
      StreamIsReference(lines[1..], next, decode, t + 1, f);
      StreamIsReference(lines[1..], next, decode, t + 2, f);
    }
  }

  /** Reaching the end of input without a stop frame is a success when nothing was cancelled or failed. */
  lemma {:induction false} EndOfInputSucceeds(lines: seq<string>, name: string, decode: string -> Payload, t: nat)
    ensures ParseStream(lines, name, decode, None, t, false).outcome == None
    decreases |lines|
  {
    if lines != [] {
      var next := NextName(name, lines[0]);
      EndOfInputSucceeds(lines[1..], next, decode, t + 1);
      EndOfInputSucceeds(lines[1..], next, decode, t + 2);
    }
  }

  /** An uncancelled call answered with 200 sends exactly the reference tokens, then closes. */
  lemma ChatForwardsStream(req: ChatRequest, body: string, lines: seq<string>, decode: string -> Payload, f: bool)
    ensures Sent(Chat(req, Response(200, body, lines, f), decode, None).trace) == StreamTokens(lines, "", decode)
    ensures !f ==> Chat(req, Response(200, body, lines, f), decode, None).outcome == None
  {
    StreamIsReference(lines, "", decode, 1, f);
    EndOfInputSucceeds(lines, "", decode, 1);
  }

  /** Cancellation only cuts the token stream short. */
  lemma {:induction false} CancellationTruncates(lines: seq<string>, name: string, decode: string -> Payload,
                                                 t: nat, k: nat, f: bool)
    ensures ParseStream(lines, name, decode, Some(k), t, f).tokens <= ParseStream(lines, name, decode, None, t, f).tokens
    ensures ParseStream(lines, name, decode, Some(k), t, f).outcome != Some(Cancelled) ==>
      ParseStream(lines, name, decode, Some(k), t, f) == ParseStream(lines, name, decode, None, t, f)
    decreases |lines|
  {
    if lines != [] && !Done(Some(k), t) {
      var next := NextName(name, lines[0]);
      CancellationTruncates(lines[1..], next, decode, t + 1, k, f);
      CancellationTruncates(lines[1..], next, decode, t + 2, k, f);
    }
  }
}
