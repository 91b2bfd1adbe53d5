# ask — a Dafny model of the streaming chat CLI

`ask` is a command-line client for large language model chat APIs. It sends a
prompt (from arguments and/or piped standard input) to OpenAI or Anthropic,
streams the reply token by token to the terminal, and keeps a conversation
history in SQLite. This project models its sequential core as pure Dafny
functions over strings, line sequences and an explicit store state, and
proves properties of that model:

| module | file | models |
|---|---|---|
| `Wrappers` | wrappers.dfy | `Option` / `Result` |
| `Strings` | strings.dfy | the Go `strings` functions the core relies on (`HasPrefix`, `TrimPrefix`, `TrimSpace`, `Fields`/`Join`, ASCII `ToLower`, substring search) |
| `Context` | context.dfy | cancellation as "the context is done from checkpoint k on" |
| `Provider` | provider.dfy | `Message`, `ChatRequest`, the provider errors, the channel as a trace `Send(tok)* · Close`, the HTTP exchange as an input |
| `SseReader` | sse_reader.dfy | `internal/sse/reader.go`: the generic event-stream reader |
| `OpenAI` | openai.dfy | `internal/provider/openai.go`: request body, status handling, inline stream decoder |
| `Anthropic` | anthropic.dfy | `internal/provider/anthropic.go`: system extraction, request body, status handling, event-name state machine |
| `Factory` | provider_factory.dfy | `provider.New` and dispatch of `Name`/`Models`/`Chat` |
| `StreamWriter` | stream_writer.dfy | `internal/stream/writer.go` as an output buffer |
| `Truncate` | truncate.dfy | `internal/util/truncate.go` (and the identical `truncateTitle`) |
| `HistoryStore` | history_store.dfy | `internal/history/store.go` over an abstract database |
| `Config` | config.dfy | `internal/config/config.go`: defaults, file overlay, environment overrides |
| `ChatCommand` | chat_cli.dfy | the pure parts of `cmd/chat.go`: prompt and message assembly, what is saved, the interactive command/turn state machine |

Conventions. A Go `string` is a `seq<char>` in which each element stands for
one byte. The goroutine that runs a provider's `Chat` and the loop that drains
its channel are replaced by the sequence of channel operations (`Send(tok)`
steps and one `Close`) plus the returned error. The context is observed at
numbered checkpoints (before every scanned line, at every send); a context
that is done at a `select` where a send is also possible is taken to win.
JSON decoding of stream payloads is an uninterpreted decoder parameter; the
HTTP response (status, body, lines, whether the scanner failed) is an input;
the history database is a pair of row sequences with AUTOINCREMENT counters
and a strictly increasing clock for `time.Now()`; where a transaction fails
is an input (`Fault`).

## Model

| member | source | states |
|---|---|---|
| SseReader.Absorb | internal/sse/reader.go:63-85 | a comment or unknown line leaves the pending event alone, `event:` changes only the name, `data:` only extends the data, and data once non-empty stays non-empty |
| SseReader.EventLineSetsName | internal/sse/reader.go:68-72 | an `event:` line names the pending event with the value's surrounding white space trimmed, keeping its data |
| SseReader.DataLineAppends | internal/sse/reader.go:74-85 | a `data:` line loses at most one leading space and is joined to earlier data with a newline only when earlier data is non-empty |
| SseReader.Finish | internal/sse/reader.go:88-105 | at end of input a pending event with data is still sent; a scanner error reports the context's error when it is done, else a read error |
| SseReader.Scan | internal/sse/reader.go:36-106 | no event with empty data is ever sent; a cancelled result needs a context, a read-error result needs a scanner failure |
| SseReader.Read | internal/sse/reader.go:36-106 | the same, and empty input sends nothing and returns nil |
| SseReader.TickIrrelevant | internal/sse/reader.go:39-45 | without a cancellation, where the checkpoint count starts has no effect |
| SseReader.UncancelledOutcome | internal/sse/reader.go:88-105 | without a cancellation the reader returns a read error exactly when the scanner failed, otherwise nil |
| SseReader.CancellationTruncates | internal/sse/reader.go:39-58 | a cancelled run sends a prefix of the uncancelled run's events, and all of them when it is not reported as cancelled |
| SseReader.CancelledBeforeStart | internal/sse/reader.go:39-45 | a context done before the first line ends the reading with its error and no events |
| SseReader.InertLineInvisible | internal/sse/reader.go:63-66 | deleting a comment or unknown-field line anywhere changes nothing |
| SseReader.TrailingBlankLikeEndOfInput | internal/sse/reader.go:96-103 | a final blank line and plain end of input dispatch the pending event alike |
| SseReader.ReadIsDispatch | internal/sse/reader.go:49-61 | without cancellation or read errors the reader equals a reference reading that splits the input at blank lines and sends every block whose data is non-empty |
| SseReader.DataLinesJoin | internal/sse/reader.go:80-83 | a block of `data:` lines accumulates its payloads with newline separators and leaves the name alone |
| SseReader.DataBlockFromScratch | internal/sse/reader.go:80-83 | read from scratch, such a block's data is its payloads joined by newlines after dropping leading empty payloads |
| OpenAI.BuildRequest | internal/provider/openai.go:79-87 | the body carries the messages, model and temperature verbatim with `stream` set; `max_tokens` is present exactly when the request's is positive |
| OpenAI.HandleHttpError | internal/provider/openai.go:120-134 | 401 is an invalid key, 429 rate limiting, 500 and above a service error, anything else an API error with status and body; the body is always read |
| OpenAI.ParseStream | internal/provider/openai.go:137-188 | never sends an empty token; a cancelled result needs a context, a stream error a scanner failure |
| OpenAI.ChunkTokens | internal/provider/openai.go:166-171 | a chunk contributes at most one token, only its first choice's non-empty content, and nothing when it does not decode |
| OpenAI.DataLineForwards | internal/provider/openai.go:159-177 | a `data: ` line other than `[DONE]` sends its chunk's first content, if any, before everything the rest of the stream sends, and the outcome is the rest's |
| OpenAI.StreamIsReference | internal/provider/openai.go:140-178 | without cancellation the tokens sent are exactly those of every `data: ` chunk before the first `[DONE]`, in order |
| OpenAI.Chat | internal/provider/openai.go:76-117 | the channel is closed exactly once on every path; a transport failure (the cancellation when the context is done) and a non-200 status send nothing; on status 200 the tokens sent and the outcome are the stream parser's, starting after the response checkpoint |
| OpenAI.ChatForwardsStream | internal/provider/openai.go:112-117 | an uncancelled call answered with 200 sends exactly the stream's chunk tokens and, without a scanner error, succeeds |
| OpenAI.DoneEndsStream | internal/provider/openai.go:161-164 | everything after a `data: [DONE]` line is ignored |
| OpenAI.DoneOnly | internal/provider/openai.go:161-164 | a stream of just `[DONE]` yields no tokens and success |
| OpenAI.TickIrrelevant | internal/provider/openai.go:140-145 | without a cancellation, where the checkpoint count starts has no effect |
| OpenAI.TokensConcatenate | internal/provider/openai.go:140-178 | the tokens of two pieces of input, the first without `[DONE]`, are the tokens of each piece in order |
| OpenAI.IgnoredLineInvisible | internal/provider/openai.go:149-157 | a line not starting with exactly `data: ` can be deleted anywhere, before or after a `[DONE]`, without changing the result |
| OpenAI.EndOfInputSucceeds | internal/provider/openai.go:180-187 | without cancellation or scanner error the stream ends in success even with no `[DONE]` |
| OpenAI.CancellationTruncates | internal/provider/openai.go:141-177 | a cancelled parse sends a prefix of the uncancelled parse's tokens, and all of them when not reported as cancelled |
| OpenAI.CancellationWinsOverReadError | internal/provider/openai.go:180-184 | a scanner error with the context done reports the cancellation |
| Anthropic.SplitSystemSpec | internal/provider/anthropic.go:84-97 | the extraction loop, from any accumulated state, equals joining the system contents and filtering out system messages |
| Anthropic.SystemExtraction | internal/provider/anthropic.go:84-97 | `system` is the system messages' contents joined by blank lines (no separator before the first non-empty one) and the other messages keep their order |
| Anthropic.NonSystemFiltered | internal/provider/anthropic.go:84-97 | no system message is forwarded and each message goes to exactly one side |
| Anthropic.BuildRequest | internal/provider/anthropic.go:99-117 | `max_tokens` is the request's when positive and 4096 otherwise; `temperature` is present exactly when positive; `system` is present exactly when non-empty; `stream` is set |
| Anthropic.RequestMessages | internal/provider/anthropic.go:105-112 | the body's `system` and `messages` are those of the extraction |
| Anthropic.HandleHttpError | internal/provider/anthropic.go:155-169 | the same status classification as OpenAI, but the body is read only for the generic API error |
| Anthropic.ParseStream | internal/provider/anthropic.go:172-241 | never sends an empty token; a cancelled result needs a context, a stream error a scanner failure |
| Anthropic.NextName | internal/provider/anthropic.go:187-191 | an `event: ` line sets the current name to the rest of the line, a blank line clears it, and any other line keeps it |
| Anthropic.PayloadTokens | internal/provider/anthropic.go:204-222 | a payload contributes a token exactly when it decodes, has a `delta` that decodes, and its text is not empty; the token is that text |
| Anthropic.BlankLineResets | internal/provider/anthropic.go:227-230 | a blank line makes the next line be read under no event name, whatever name was current |
| Anthropic.DeltaFrameForwards | internal/provider/anthropic.go:188-224 | `event: content_block_delta` followed by a `data: ` line sends the payload's text, if it has one, before everything the rest of the stream sends under the same name; malformed JSON, a missing or malformed delta and empty text send nothing |
| Anthropic.TokensConcatenate | internal/provider/anthropic.go:177-231 | before any stop frame, the tokens of two pieces of input are those of the first followed by those of the second, read under the name the first leaves current |
| Anthropic.StreamIsReference | internal/provider/anthropic.go:177-231 | without cancellation the tokens sent are exactly those of every `data: ` payload under `content_block_delta` before the first `data: ` line under `message_stop`, in order |
| Anthropic.EndOfInputSucceeds | internal/provider/anthropic.go:233-240 | without cancellation or scanner error the stream ends in success even with no `message_stop` |
| Anthropic.Chat | internal/provider/anthropic.go:77-152 | the channel is closed exactly once on every path; a transport failure (the cancellation when the context is done) and a non-200 status send nothing; on status 200 the tokens sent and the outcome are the stream parser's, from no event name, starting after the response checkpoint |
| Anthropic.ChatForwardsStream | internal/provider/anthropic.go:145-152 | an uncancelled call answered with 200 sends exactly the stream's delta texts and, without a scanner error, succeeds |
| Anthropic.StopEndsStream | internal/provider/anthropic.go:197-200 | after `event: message_stop` a `data: ` line ends the stream in success and nothing later is forwarded |
| Anthropic.TickIrrelevant | internal/provider/anthropic.go:177-183 | without a cancellation, where the checkpoint count starts has no effect |
| Anthropic.OtherLineInvisible | internal/provider/anthropic.go:185-230 | a non-blank line that is neither `event: ` nor `data: ` can be deleted without changing the result |
| Anthropic.OtherEventIgnored | internal/provider/anthropic.go:202-224 | data under an event name other than `content_block_delta` and `message_stop` forwards nothing |
| Anthropic.UntrimmedNameNotDelta | internal/provider/anthropic.go:188-191 | the event name is not trimmed, so `event:  content_block_delta` (two spaces) forwards nothing |
| Anthropic.CancellationTruncates | internal/provider/anthropic.go:177-222 | a cancelled parse sends a prefix of the uncancelled parse's tokens, and all of them when not reported as cancelled |
| Provider.Deliver | internal/provider/provider.go:29-31 | delivering tokens sends exactly them, in order, then closes the channel once |
| Factory.New | internal/provider/provider.go:42-58 | a provider is made exactly for `openai`/`anthropic` with a non-empty configured key, and holds that key; an unknown name and a missing key are told apart |
| Factory.Chat | internal/provider/provider.go:28-31 | whichever vendor, the channel is closed exactly once and no empty token is sent; an OpenAI backend behaves exactly as `OpenAI.Chat` with the OpenAI decoder, an Anthropic backend as `Anthropic.Chat` with the Anthropic decoder |
| Factory.VendorsAgreeOnStatus | internal/provider/anthropic.go:155-169 | both vendors classify every status identically |
| Factory.OnlyOkIsStreamed | internal/provider/openai.go:112-114 | any status other than 200 (201 and 204 included) closes the channel without tokens and reports an error |
| StreamWriter.NewWriter | internal/stream/writer.go:20-25 | the writer reports the mode it was built with and writes to the given output |
| StreamWriter.Write | internal/stream/writer.go:28-31 | a write succeeds exactly when the output accepts it and then appends the token byte for byte |
| StreamWriter.Flush | internal/stream/writer.go:35-42 | in terminal mode nothing is written; in pipe mode one newline is appended, or a warning is logged when the output is broken; it never fails |
| StreamWriter.WriteAllConcatenates | internal/stream/writer.go:28-31 | a sequence of writes to a working output appends the concatenation of the tokens |
| StreamWriter.EmptyTokenInvisible | internal/stream/writer.go:28-31 | writing an empty token changes nothing |
| StreamWriter.ModeIsStable | internal/stream/writer.go:44-47 | `IsTTY` returns the constructor's flag after any writes and a flush |
| StreamWriter.ResponseOutput | internal/stream/writer.go:33-42 | a streamed reply followed by a flush is the tokens, then a newline only in pipe mode |
| Strings.NormalizeIdempotent | internal/util/truncate.go:9 | collapsing white space twice is collapsing it once |
| Truncate.Truncate | internal/util/truncate.go:8-16 | the result is white-space normalised and at most `maxLen` long; it is the normalised input exactly when that fits, otherwise its first `maxLen-3` bytes and `...`; blank input gives "" |
| Truncate.EllipsisKeepsNormalForm | internal/util/truncate.go:15 | cutting a normalised string and appending `...` keeps it normalised |
| Truncate.TruncateIdempotent | internal/util/truncate.go:8-16 | truncating twice to the same length is truncating once |
| Config.DefaultConfig | internal/config/config.go:29-38 | provider `openai`, model `gpt-4o`, entries for both vendors, no keys |
| Config.GetApiKey | internal/config/config.go:108-113 | the stored key, or "" for a provider the configuration does not know |
| Config.ResolveReferenceOfName | internal/config/config.go:95-104 | `${NAME}` becomes the variable's value when that is non-empty and stays literal otherwise |
| Config.PlainKeyKept | internal/config/config.go:97 | a key not starting with `${` is never rewritten |
| Config.ApplyEnvOverrides | internal/config/config.go:71-105 | non-empty `ASK_PROVIDER`/`ASK_MODEL` replace the defaults; a non-empty vendor key variable sets (and creates) only that vendor's entry; other keys only undergo `${}` resolution |
| Config.Load | internal/config/config.go:42-59 | loading fails exactly when the file exists but cannot be parsed |
| Config.EnvironmentWinsOverFile | internal/config/config.go:55-58 | non-empty environment values win over the file's |
| Config.FileWinsOverDefaults | internal/config/config.go:43-53 | with an empty environment the file's provider, model and keys stand, `${VAR}` references included |
| HistoryStore.UnsavedMembers | internal/history/store.go:98-99 | exactly the messages with id 0 are selected for insertion |
| HistoryStore.Unsaved | internal/history/store.go:98-99 | only id-less messages are selected, never more than were given |
| HistoryStore.UnsavedAllNew | internal/history/store.go:98-107 | a list with no ids is inserted whole |
| HistoryStore.AddMessage | internal/history/store.go:100-103 | one insert appends one row carrying the conversation id, role and content, keeps the rest and keeps the state valid |
| HistoryStore.InsertAll | internal/history/store.go:97-108 | the message loop appends exactly the id-less messages, in list order, all under the conversation id |
| HistoryStore.FirstUser | internal/history/store.go:75-80 | the first user message, or none exactly when there is no user message |
| HistoryStore.Title | internal/history/store.go:72-81 | a given title is kept; otherwise the first user message truncated to 50, or "" without one |
| HistoryStore.SaveConversationAsWritten | internal/history/store.go:63-115 | as written: a failed save leaves the database unchanged, a successful one is the corrected save |
| HistoryStore.SaveConversation | internal/history/store.go:63-115 | all or nothing; a new conversation gets one row with a fresh positive id that is returned; an existing one adds no row and keeps its id; the id-less messages are appended in order; validity is preserved |
| HistoryStore.NewRowKeepsValid | internal/history/store.go:83-89 | the inserted conversation row keeps the database valid and its id was not in use |
| HistoryStore.ResaveInsertsAgain | internal/history/store.go:97-108 | saving the same id-less message list twice stores it twice |
| HistoryStore.SaveKeepsLinked | internal/history/store.go:63-115 | given a caller id that exists, every message row keeps pointing at an existing conversation |
| HistoryStore.RolledBackIdKept | internal/history/store.go:91-112 | as written, a failed message insert leaves the caller holding a rolled-back id that no row has |
| HistoryStore.NextSaveOrphansMessages | internal/history/store.go:91-112 | as written, the next save with that conversation succeeds and stores messages under a missing conversation |
| HistoryStore.FailedSaveStaysNew | internal/history/store.go:63-115 | corrected, the failed conversation stays new and the next save creates its row |
| HistoryStore.FindConv | internal/history/store.go:162-170 | the row with the id, or not found exactly when there is none |
| HistoryStore.MessagesOf | internal/history/store.go:175-193 | exactly that conversation's message rows, each tagged with the id |
| HistoryStore.MessagesOfAscending | internal/history/store.go:175-180 | in a valid database they come in ascending creation time |
| HistoryStore.PrependAscending | internal/history/store.go:175-180 | an older message before an ascending list keeps it ascending |
| HistoryStore.GetConversation | internal/history/store.go:159-196 | not found exactly for an unknown id; otherwise the row's fields and only its messages, ascending by creation time |
| HistoryStore.SomeMessageMentionsMeans | internal/history/store.go:124-128 | the search join matches exactly when some message of the conversation contains the search, ignoring ASCII case |
| HistoryStore.Select | internal/history/store.go:122-131 | a conversation is selected exactly when its title or one of its messages contains the search; an empty search selects all |
| HistoryStore.SelectAscending | internal/history/store.go:129 | selection keeps creation order |
| HistoryStore.Limit | internal/history/store.go:130 | a negative limit keeps everything, as SQLite's `LIMIT` does |
| HistoryStore.ListConversations | internal/history/store.go:118-156 | at most `limit` matching rows, each once, newest first, no messages, and no matching row left out that is newer than one returned |
| HistoryStore.ListSound | internal/history/store.go:122-131 | every listed conversation exists and matches the search |
| HistoryStore.ListComplete | internal/history/store.go:130-138 | without the limit biting, every matching conversation is listed |
| HistoryStore.ListDescending | internal/history/store.go:129 | the list is strictly newest first |
| HistoryStore.ListKeepsNewest | internal/history/store.go:129-130 | a matching conversation left out is older than every listed one |
| ChatCommand.SelectMode | cmd/chat.go:28-38 | interactive exactly with no arguments, a terminal on stdin and no `--continue` |
| ChatCommand.BuildPrompt | cmd/chat.go:205-226 | piped content (when non-empty) and the space-joined arguments, separated by a blank line; an unreadable stdin is an error |
| ChatCommand.PartsJoined | cmd/chat.go:220-225 | joining the parts gives piped data, arguments, or both with a blank line between |
| ChatCommand.ResolveSystemPrompt | cmd/chat.go:228-244 | "" stays "", `@path` is the file's content or an error naming the path, anything else is itself |
| ChatCommand.RequestMessages | cmd/chat.go:66-100 | the loaded history, then the system prompt when non-empty and not continuing, then the prompt when not blank |
| ChatCommand.PrepareOneShot | cmd/chat.go:40-100 | a successful setup has the built prompt, the configured provider, the continued conversation exactly when `--continue` is positive, and the assembled request messages |
| ChatCommand.History | cmd/chat.go:83-89 | the continued conversation's messages as role and content, in stored order |
| ChatCommand.BlankPromptRefusedFirst | cmd/chat.go:49-51 | a blank prompt without `--continue` is refused whatever the provider and system prompt |
| ChatCommand.MessagesToSave | cmd/chat.go:162-190 | a new conversation saves all request messages and the reply; a continued one only the last request message and the reply; all id-less |
| ChatCommand.SaveToHistory | cmd/chat.go:147-193 | a failed save changes nothing; a new conversation gets one row with the provider and model; a continued one adds no row and returns its own id |
| ChatCommand.NewConversationStoresExchange | cmd/chat.go:165-191 | a new conversation's stored rows are the request messages and then the reply, in order |
| ChatCommand.FinishOneShot | cmd/chat.go:108-144 | the output is the reply plus a newline in pipe mode; a broken output fails only if a token arrived; a chat error is reported; history changes only after success to a terminal with a non-blank prompt |
| ChatCommand.Respond | cmd/chat.go:121-144 | after the token loop: a write failure is reported first, then the chat error, else the exchange may be saved |
| ChatCommand.FirstWriteFails | cmd/chat.go:123-128 | with a broken output the token loop fails exactly when some token arrives |
| ChatCommand.Kind | cmd/chat.go:296-318 | a line is taken as `/model` only when it starts with `/model ` |
| ChatCommand.KindOfModelLine | cmd/chat.go:308 | every lower-cased line starting with `/model ` is a model switch |
| ChatCommand.ParseInput | cmd/chat.go:289-320 | blank input is skipped, input not starting with `/` is sent as it is, and a model switch takes the trimmed text after the seven-character prefix whatever its case |
| ChatCommand.ParseSlash | cmd/chat.go:295-320 | a `/` line is a command, never a prompt |
| ChatCommand.ModelArgument | cmd/chat.go:308-312 | the model named after a `/model ` prefix of any case, trimmed |
| ChatCommand.ModelLine | cmd/chat.go:289-308 | a prefix spelled `/model ` in any case followed by a model name survives trimming and is recognised as a model switch |
| ChatCommand.AsWrittenKeepsPrefix | cmd/chat.go:308-310 | as written, any spelling of the prefix other than lower case is kept in the new model name |
| ChatCommand.ModelCommandKeepsPrefix | cmd/chat.go:308-310 | as written, `/Model gpt-4o` switches to the model `/Model gpt-4o` |
| ChatCommand.ModelSwitchAnyCase | cmd/chat.go:308-312 | corrected, a prefix of any case switches to exactly the named model |
| ChatCommand.StartInteractive | cmd/chat.go:246-264 | the interactive start creates the provider before resolving the system prompt and fails with the first error |
| ChatCommand.StartupOrderDiffers | cmd/chat.go:54-63 | with a missing key and an unreadable system prompt file, one-shot reports the file and interactive mode the provider |
| ChatCommand.PendingConv | cmd/chat.go:364-373 | the conversation a successful turn saves is the session's own, or a new untitled one for the current model and provider, holding exactly the prompt and the reply |
| ChatCommand.Turn | cmd/chat.go:322-380 | a failed chat leaves the session as it was; a successful one appends exactly the prompt and the reply, keeps a conversation holding just that pair (with its id once it has one), saves it when the store opens and leaves the store alone otherwise; the model is kept |
| ChatCommand.TurnStoresExchange | cmd/chat.go:363-379 | with the store open and no fault, a first successful turn adds one conversation row for the session's model and the provider, titled after the prompt, and a later turn adds none; either way the prompt and the reply follow as two message rows under the conversation the session keeps |
| ChatCommand.SavePair | internal/history/store.go:97-114 | saving a prompt and its reply without a fault appends their two rows, in order, under the conversation's id |
| ChatCommand.Step | cmd/chat.go:289-320 | the session ends exactly when the trimmed, lower-cased line is `/quit`, `/exit` or `/q`; `/new` and `/clear` in any case restart from the system prompt and drop the conversation; `/help`, unknown commands and blank lines change nothing; a `/model` line switches the model; any other line is a turn |
| ChatCommand.ClassifyNames | cmd/chat.go:289-315 | a line is read as quit, new conversation or help exactly when its trimmed, lower-cased form is one of that command's spellings |
| ChatCommand.ParseInputNames | cmd/chat.go:290-315 | a trimmed line is read as quit, new conversation or help exactly when its lower-cased form is one of that command's spellings |
| ChatCommand.AppendTurnAlternates | cmd/chat.go:359-361 | appending a prompt and its reply keeps the history alternating |
| ChatCommand.TurnPreserves | cmd/chat.go:322-380 | corrected, a turn keeps the messages well formed and the saved conversation consistent with the store |
| ChatCommand.SavePreservesConsistency | cmd/chat.go:375-379 | corrected, saving keeps the store valid, linked, and the conversation's id present once assigned |
| ChatCommand.StepPreserves | cmd/chat.go:289-380 | corrected, every line of the loop keeps those invariants |
| ChatCommand.InitialWellFormed | cmd/chat.go:266-270 | the opening message list is well formed |
| ChatCommand.SessionInvariant | cmd/chat.go:278-381 | corrected, however many lines are read, the messages are the optional system prompt followed by alternating prompts and replies, and the store stays consistent |

## Left out

- HTTP transport, URLs and headers, JSON marshalling and the exact JSON bytes: the exchange and the stream-payload decoders are inputs; only which request members are present is modelled.
- Goroutines and channels: the producer's channel operations become a trace consumed in order; buffering, blocking and `select` fairness are not modelled (a context that is done wins a `select`).
- `bufio.Scanner` internals, including its 64 KiB line limit: lines are an input and a scanner failure is a flag.
- Terminal detection, standard input, file reads, printing (the interactive banner, help text and warnings), `os.Getenv`, `os.UserConfigDir`, `getConfigPath`, `GetDataDir`, `openStore`, `NewStore`, the migrations and `Close`: they are inputs or omitted.
- YAML decoding: the configuration file is given as missing, unparsable, or parsed into the fields it sets.
- SQLite itself: `LIKE` wildcards `%` and `_` in a search are matched literally, case-insensitivity is ASCII only, and query or scan errors other than "not found" are not modelled; `LastInsertId` is taken never to fail.
- `time.Now()` is a counter in the database state; a failed transaction does not advance it.
- Unicode: white space is the six ASCII white-space bytes and lower-casing is ASCII only, whereas Go's `strings.Fields`, `TrimSpace` and `ToLower` also handle multi-byte UTF-8 characters.
- Floating point: temperature matters only through the `> 0` test.
- `Truncate.Truncate` requires `maxLen >= 3` whenever the normalised input is longer than `maxLen`; Go panics on the slice in that case.
- In interactive mode a write error breaks the token loop without draining the channel (the producer can then block), and `defer store.Close()` runs only when the command returns; neither is modelled, and a turn's output is not modelled.
- `Provider.Name`/`Models` of both vendors and of the factory are constant functions without contracts; `getProvider`/`getModel` (cmd/root.go) are the plain flag-over-configuration choice `ChatCommand.Choose`.
- The status rule: every status other than 200, 201 and 204 included, is an error (openai.go:112, anthropic.go:146); the model follows the code (`Factory.OnlyOkIsStreamed`).
- The stream writer's output accepts or refuses a whole write: a partial write, and a refused write followed by accepted ones on the same output, are not modelled.
- A configuration file that sets `providers:` to null leaves the provider map nil in Go, and the key overrides from the environment then write to a nil map and panic (config.go:86, config.go:92); the parsed file settings always carry a provider map, so this case is not modelled.
- `ChatCommand.Step` uses the corrected `/model` reading (`ChatCommand.Classify`); the reading as written is `ChatCommand.ClassifyAsWritten`.
- `ChatCommand.Turn` and the one-shot save use the corrected `HistoryStore.SaveConversation`; the as-written save is `HistoryStore.SaveConversationAsWritten`.

## Findings

| source | as written | input that shows it | evidently intended | confidence | as-written member | corrected member |
|---|---|---|---|---|---|---|
| internal/history/store.go:91-112 | `conv.ID` is assigned right after the conversation insert and is not reset when a later message insert or the commit fails and the transaction rolls back | a new conversation whose first message insert fails (`MsgInsertFails(0)`), then the interactive loop's next save of the same `conv` | a failed save leaves the caller's conversation new, so the next save creates its row | not executed | HistoryStore.NextSaveOrphansMessages | HistoryStore.FailedSaveStaysNew |
| cmd/chat.go:308-310 | `/model ` is recognised on the lower-cased line but removed with the case-sensitive `TrimPrefix` from the original line | the line `/Model gpt-4o` switches to the model `/Model gpt-4o` | the model becomes `gpt-4o` whatever the case of the command | not executed | ChatCommand.ModelCommandKeepsPrefix | ChatCommand.ModelSwitchAnyCase |
