/**
 * The pure logic of `cmd/chat.go`: prompt assembly, the one-shot request,
 * the choice of what to save, and the interactive session's commands and
 * turns. Terminals, files and the database are inputs; the producer and
 * consumer goroutines become the provider's trace, consumed in order.
 */
module ChatCommand {
  import opened Wrappers
  import opened Strings
  import opened Context
  import opened Provider
  import Config
  import Factory
  import HistoryStore
  import Truncate
  import StreamWriter

  // ---------------------------------------------------------------------
  // Entry point and flags
  // ---------------------------------------------------------------------

  datatype Mode = Interactive | OneShot

  /** `runChat`: interactive only with no arguments, a terminal on stdin and no `--continue`. */
  function SelectMode(args: seq<string>, stdinIsTerminal: bool, continueId: int): (m: Mode)
    ensures m == Interactive <==> args == [] && stdinIsTerminal && continueId == 0
  {
    if |args| == 0 && stdinIsTerminal && continueId == 0 then Interactive else OneShot
  }

  /** `getProvider` and `getModel`: a non-empty flag beats the configuration. */
  function Choose(flag: string, configured: string): string {
    if flag != "" then flag else configured
  }

  // ---------------------------------------------------------------------
  // Prompt and system prompt
  // ---------------------------------------------------------------------

  /** What standard input is: a terminal, a pipe with its whole content, or a pipe that fails to read. */
  datatype Stdin = Terminal | Piped(data: string) | Unreadable

  datatype CliError =
    | StdinFailed
    | NoPrompt
    | SystemPromptUnreadable(path: string)
    | ProviderFailed(factoryError: Factory.FactoryError)
    | LoadFailed(loadError: HistoryStore.GetError)
    | OutputFailed
    | ChatFailed(chatError: ChatError)

  const PartSeparator: string := "\n\n"

  /** `buildPrompt`: piped input (when non-empty), then the arguments joined by spaces, separated by a blank line. */
  function BuildPrompt(stdin: Stdin, args: seq<string>): (r: Result<string, CliError>)
    ensures r.Err? <==> stdin.Unreadable?
    ensures r.Err? ==> r.error == StdinFailed
    ensures stdin.Piped? && stdin.data != "" && args != [] ==>
      r == Ok(stdin.data + PartSeparator + Join(args, " "))
    ensures stdin.Piped? && stdin.data != "" && args == [] ==> r == Ok(stdin.data)
    ensures stdin.Terminal? || stdin == Piped("") ==> r == Ok(Join(args, " "))
  {
    match stdin
    case Unreadable => Err(StdinFailed)
    case Terminal => PartsJoined("", args); Ok(Join(PromptParts("", args), PartSeparator))
    case Piped(data) => PartsJoined(data, args); Ok(Join(PromptParts(data, args), PartSeparator))
  }

  /** The parts `buildPrompt` collects: non-empty piped input, then the arguments if there are any. */
  function PromptParts(piped: string, args: seq<string>): seq<string> {
    (if |piped| > 0 then [piped] else []) + (if |args| > 0 then [Join(args, " ")] else [])
  }

  lemma PartsJoined(piped: string, args: seq<string>)
    ensures Join(PromptParts(piped, args), PartSeparator)
         == if piped == "" then Join(args, " ")
            else if args == [] then piped
            else piped + PartSeparator + Join(args, " ")
  {
    var typed := if |args| > 0 then [Join(args, " ")] else [];
    if piped != "" && args != [] {
      assert PromptParts(piped, args) == [piped, Join(args, " ")];
      assert [piped, Join(args, " ")][1..] == [Join(args, " ")];
    } else if piped != "" {
      assert PromptParts(piped, args) == [piped];
    } else {
      assert PromptParts(piped, args) == typed;
    }
  }

  /** `resolveSystemPrompt`: empty stays empty, `@path` is the file's content, anything else is the prompt itself. */
  function ResolveSystemPrompt(s: string, readFile: string -> Option<string>): (r: Result<string, CliError>)
    ensures s == "" ==> r == Ok("")
    ensures s != "" && !HasPrefix(s, "@") ==> r == Ok(s)
    ensures HasPrefix(s, "@") ==>
      r == (match readFile(s[1..])
            case Some(data) => Ok(data)
            case None => Err(SystemPromptUnreadable(s[1..])))
  {
    if s == "" then Ok("")
    else if HasPrefix(s, "@") then
      var path := TrimPrefix(s, "@");
      match readFile(path)
      case Some(data) => Ok(data)
      case None => Err(SystemPromptUnreadable(path))
    else Ok(s)
  }

  /** A prompt with some non-white-space character. */
  predicate Given(prompt: string) {
    TrimSpace(prompt) != ""
  }

  // ---------------------------------------------------------------------
  // The one-shot request
  // ---------------------------------------------------------------------

  function FromHistory(m: HistoryStore.Message): Message {
    Message(m.role, m.content)
  }

  /**
   * The request's messages (chat.go:67-100): the loaded history, the system
   * prompt when starting fresh, the user prompt when it is not blank.
   */
  function RequestMessages(history: seq<Message>, systemPrompt: string, continueId: int, prompt: string): (r: seq<Message>)
    ensures |r| == |history| + (if systemPrompt != "" && continueId == 0 then 1 else 0) + (if Given(prompt) then 1 else 0)
    ensures r[..|history|] == history
    ensures systemPrompt != "" && continueId == 0 ==> r[|history|] == Message(SystemRole, systemPrompt)
    ensures Given(prompt) ==> r[|r| - 1] == Message(UserRole, prompt)
  {
    var system := if systemPrompt != "" && continueId == 0 then [Message(SystemRole, systemPrompt)] else [];
    var user := if Given(prompt) then [Message(UserRole, prompt)] else [];
    var r := history + system + user;
    assert r[..|history|] == history;
    r
  }

  /** Everything `runOneShot` has decided before the request is sent. */
  datatype Setup = Setup(backend: Factory.Backend, prompt: string, messages: seq<Message>,
                         conv: Option<HistoryStore.Conversation>)

  /**
   * `runOneShot` up to the request (chat.go:40-100), with its checks in
   * source order: the prompt, the blank-prompt check, the system prompt,
   * the provider, then the conversation being continued.
   */
  function PrepareOneShot(stdin: Stdin, args: seq<string>, continueId: int, systemFlag: string,
                          readFile: string -> Option<string>, providerName: string, cfg: Config.Config,
                          db: HistoryStore.Db): (r: Result<Setup, CliError>)
    ensures stdin.Unreadable? ==> r == Err(StdinFailed)
    ensures r.Ok? ==> BuildPrompt(stdin, args) == Ok(r.value.prompt)
    ensures r.Ok? ==> Factory.New(providerName, cfg) == Ok(r.value.backend)
    ensures r.Ok? ==> (r.value.conv.Some? <==> continueId > 0)
    ensures r.Ok? && continueId > 0 ==> HistoryStore.GetConversation(db, continueId) == Ok(r.value.conv.value)
    ensures r.Ok? ==> Given(r.value.prompt) || continueId != 0
    ensures r.Ok? ==>
      ResolveSystemPrompt(systemFlag, readFile).Ok?
      && r.value.messages == RequestMessages(History(r.value.conv), ResolveSystemPrompt(systemFlag, readFile).value,
                                             continueId, r.value.prompt)
  {
    match BuildPrompt(stdin, args)
    case Err(e) => Err(e)
    case Ok(prompt) =>
      if !Given(prompt) && continueId == 0 then Err(NoPrompt)
      else match ResolveSystemPrompt(systemFlag, readFile)
      case Err(e) => Err(e)
      case Ok(system) =>
        match Factory.New(providerName, cfg)
        case Err(e) => Err(ProviderFailed(e))
        case Ok(backend) =>
          if continueId > 0 then
            match HistoryStore.GetConversation(db, continueId)
            case Err(e) => Err(LoadFailed(e))
            case Ok(conv) =>
              Ok(Setup(backend, prompt, RequestMessages(History(Some(conv)), system, continueId, prompt), Some(conv)))
          else Ok(Setup(backend, prompt, RequestMessages([], system, continueId, prompt), None))
  }

  /** The continued conversation's messages as request messages, in stored order. */
  function History(conv: Option<HistoryStore.Conversation>): (r: seq<Message>)
    ensures conv.None? ==> r == []
    ensures conv.Some? ==>
      |r| == |conv.value.messages| && forall i :: 0 <= i < |r| ==> r[i] == FromHistory(conv.value.messages[i])
  {
    match conv
    case None => []
    case Some(c) => seq(|c.messages|, i requires 0 <= i < |c.messages| => FromHistory(c.messages[i]))
  }

  /** A blank prompt without `--continue` is refused before a provider is created, whatever the provider. */
  lemma BlankPromptRefusedFirst(stdin: Stdin, args: seq<string>, systemFlag: string, readFile: string -> Option<string>,
                                providerName: string, cfg: Config.Config, db: HistoryStore.Db)
    requires BuildPrompt(stdin, args).Ok? && !Given(BuildPrompt(stdin, args).value)
    ensures PrepareOneShot(stdin, args, 0, systemFlag, readFile, providerName, cfg, db) == Err(NoPrompt)
  {
  }

  // ---------------------------------------------------------------------
  // Saving a one-shot exchange
  // ---------------------------------------------------------------------

  function ToHistory(m: Message): HistoryStore.Message {
    HistoryStore.Message(0, 0, m.role, m.content, 0)
  }

  /**
   * `saveToHistory`'s selection (chat.go:162-188): every request message for
   * a new conversation, only the last one for a continued conversation, then
   * the reply; none of them has an id yet.
   */
  function MessagesToSave(messages: seq<Message>, response: string, continuing: bool): (r: seq<HistoryStore.Message>)
    ensures forall i :: 0 <= i < |r| ==> r[i].id == 0
    ensures |r| > 0 && FromHistory(r[|r| - 1]) == Message(AssistantRole, response)
    ensures !continuing ==>
      |r| == |messages| + 1 && forall i :: 0 <= i < |messages| ==> FromHistory(r[i]) == messages[i]
    ensures continuing && messages == [] ==> |r| == 1
    ensures continuing && messages != [] ==> |r| == 2 && FromHistory(r[0]) == messages[|messages| - 1]
  {
    var chosen := if !continuing then messages else if messages == [] then [] else [messages[|messages| - 1]];
    seq(|chosen|, i requires 0 <= i < |chosen| => ToHistory(chosen[i])) + [ToHistory(Message(AssistantRole, response))]
  }

  /** History is kept only for terminal output and a non-blank prompt. */
  predicate ShouldSave(stdoutIsTerminal: bool, prompt: string) {
    stdoutIsTerminal && Given(prompt)
  }

  /** `saveToHistory`: a new conversation records the provider and model, a continued one keeps its row. */
  function SaveToHistory(db: HistoryStore.Db, providerName: string, model: string, messages: seq<Message>,
                         response: string, existing: Option<HistoryStore.Conversation>,
                         fault: HistoryStore.Fault): (r: HistoryStore.Saved)
    ensures r.result.Err? ==> r.db == db
    ensures r.result.Ok? && existing.None? ==>
      (|r.db.convs| == |db.convs| + 1 && r.db.convs[|db.convs|].provider == providerName
       && r.db.convs[|db.convs|].model == model)
    ensures r.result.Ok? && existing.Some? && existing.value.id != 0 ==>
      r.db.convs == db.convs && r.result.value == existing.value.id
  {
    var conv := match existing
      case None => HistoryStore.Conversation(0, "", model, providerName, 0, [])
      case Some(c) => c;
    HistoryStore.SaveConversation(db, conv.(messages := MessagesToSave(messages, response, existing.Some?)), fault)
  }

  /**
   * A new conversation's rows are exactly the request messages followed by
   * the reply, in order, all under the new conversation's id.
   */
  lemma NewConversationStoresExchange(db: HistoryStore.Db, providerName: string, model: string,
                                      messages: seq<Message>, response: string, fault: HistoryStore.Fault)
    requires SaveToHistory(db, providerName, model, messages, response, None, fault).result.Ok?
    ensures var r := SaveToHistory(db, providerName, model, messages, response, None, fault);
            var added := r.db.msgs[|db.msgs|..];
            |added| == |messages| + 1
            && (forall i :: 0 <= i < |messages| ==>
                  added[i].convId == r.result.value && added[i].role == messages[i].role
                  && added[i].content == messages[i].content)
            && added[|messages|].role == AssistantRole && added[|messages|].content == response
  {
    var toSave := MessagesToSave(messages, response, false);
    HistoryStore.UnsavedAllNew(toSave);
    var r := SaveToHistory(db, providerName, model, messages, response, None, fault);
    var added := r.db.msgs[|db.msgs|..];
    assert HistoryStore.StoresAll(added, r.conv.id, toSave);
    forall i | 0 <= i < |messages|
      ensures added[i].role == messages[i].role && added[i].content == messages[i].content
    {
      assert FromHistory(toSave[i]) == messages[i];
      assert HistoryStore.Stores(added[i], r.conv.id, toSave[i]);
    }
    assert HistoryStore.Stores(added[|messages|], r.conv.id, toSave[|messages|]);
  }

  // ---------------------------------------------------------------------
  // Finishing a one-shot exchange
  // ---------------------------------------------------------------------

  /** The reply as the consumer loop collects it: the sent tokens, in order. */
  function Reply(run: ChatRun): string {
    StreamWriter.Concat(Sent(run.trace))
  }

  /** How `runOneShot` ends: what was printed, the database, and the command's result. */
  datatype Ending = Ending(out: StreamWriter.Writer, db: HistoryStore.Db, result: Result<(), CliError>, saveWarned: bool)

  /**
   * The consumer side of `runOneShot` (chat.go:108-144): write every token,
   * flush, then report the provider's error or save the exchange. A failed
   * save is only a warning.
   */
  function FinishOneShot(setup: Setup, run: ChatRun, sink: StreamWriter.Sink, stdoutIsTerminal: bool,
                         db: HistoryStore.Db, model: string, fault: HistoryStore.Fault): (r: Ending)
    ensures !sink.broken ==> r.out.sink.written == sink.written + Reply(run) + (if stdoutIsTerminal then "" else "\n")
    ensures r.result == Err(OutputFailed) <==> sink.broken && Sent(run.trace) != []
    ensures r.result.Ok? <==> run.outcome.None? && (!sink.broken || Sent(run.trace) == [])
    ensures run.outcome.Some? && (!sink.broken || Sent(run.trace) == []) ==> r.result == Err(ChatFailed(run.outcome.value))
    ensures r.db != db ==> r.result.Ok? && ShouldSave(stdoutIsTerminal, setup.prompt)
    ensures r.result.Ok? && ShouldSave(stdoutIsTerminal, setup.prompt) ==>
      r.db == SaveToHistory(db, Factory.Name(setup.backend), model, setup.messages, Reply(run), setup.conv, fault).db
  {
    var tokens := Sent(run.trace);
    var w := StreamWriter.NewWriter(sink, stdoutIsTerminal);
    var written := StreamWriter.WriteAll(w, tokens);
    if sink.broken then FirstWriteFails(w, tokens); Respond(setup, run, written, stdoutIsTerminal, db, model, fault)
    else
      StreamWriter.ResponseOutput(sink, stdoutIsTerminal, tokens);
      StreamWriter.WriteAllConcatenates(w, tokens);
      Respond(setup, run, written, stdoutIsTerminal, db, model, fault)
  }

  /** After the token loop: stop on a write error, otherwise flush, then check the provider's error and save. */
  function Respond(setup: Setup, run: ChatRun, written: StreamWriter.Written, stdoutIsTerminal: bool,
                   db: HistoryStore.Db, model: string, fault: HistoryStore.Fault): (r: Ending)
    ensures written.ok ==> r.out == StreamWriter.Flush(written.writer)
    ensures r.result == Err(OutputFailed) <==> !written.ok
    ensures written.ok ==> (r.result.Ok? <==> run.outcome.None?)
    ensures written.ok && run.outcome.Some? ==> r.result == Err(ChatFailed(run.outcome.value))
    ensures r.db != db ==> r.result.Ok? && ShouldSave(stdoutIsTerminal, setup.prompt)
    ensures r.result.Ok? && ShouldSave(stdoutIsTerminal, setup.prompt) ==>
      r.db == SaveToHistory(db, Factory.Name(setup.backend), model, setup.messages, Reply(run), setup.conv, fault).db
  {
    if !written.ok then Ending(written.writer, db, Err(OutputFailed), false)
    else
      var out := StreamWriter.Flush(written.writer);
      match run.outcome
      case Some(e) => Ending(out, db, Err(ChatFailed(e)), false)
      case None =>
        if ShouldSave(stdoutIsTerminal, setup.prompt) then
          var saved := SaveToHistory(db, Factory.Name(setup.backend), model, setup.messages, Reply(run), setup.conv, fault);
          Ending(out, saved.db, Ok(()), saved.result.Err?)
        else Ending(out, db, Ok(()), false)
  }

  /** On a broken sink the writer stops at the first token; with no token there is nothing to fail. */
  lemma FirstWriteFails(w: StreamWriter.Writer, tokens: seq<string>)
    requires w.sink.broken
    ensures StreamWriter.WriteAll(w, tokens).ok <==> tokens == []
  {
  }

  // ---------------------------------------------------------------------
  // The interactive session
  // ---------------------------------------------------------------------

  /** What one input line asks for (chat.go:289-320). */
  datatype Command = Blank | Quit | Reset | SwitchModel(model: string) | Help | UnknownCommand(input: string) | Ask(text: string)

  const ModelPrefix: string := "/model "

  /** Which slash command a lower-cased line names. */
  datatype SlashKind = QuitCommand | NewCommand | ModelCommand | HelpCommand | OtherCommand

  function Kind(cmd: string): (k: SlashKind)
    ensures k == ModelCommand ==> HasPrefix(cmd, ModelPrefix)
  {
    if cmd == "/quit" || cmd == "/exit" || cmd == "/q" then QuitCommand
    else if cmd == "/new" || cmd == "/clear" then NewCommand
    else if HasPrefix(cmd, ModelPrefix) then ModelCommand
    else if cmd == "/help" then HelpCommand
    else OtherCommand
  }

  /** The lower-cased spellings that end the session, start a new conversation, and ask for help. */
  const QuitWords: set<string> := {"/quit", "/exit", "/q"}
  const ResetWords: set<string> := {"/new", "/clear"}
  const HelpWord: string := "/help"

  /** Each command is named by exactly its own spellings. */
  lemma KindNames(cmd: string)
    ensures Kind(cmd) == QuitCommand <==> cmd in QuitWords
    ensures Kind(cmd) == NewCommand <==> cmd in ResetWords
    ensures Kind(cmd) == HelpCommand <==> cmd == HelpWord
  {
  }

  /** A lower-cased line that starts with `/model ` is none of the other commands. */
  lemma KindOfModelLine(cmd: string)
    requires HasPrefix(cmd, ModelPrefix)
    ensures Kind(cmd) == ModelCommand
  {
    assert |cmd| > |"/clear"|;
  }

  /** The command a slash line names, with `model` as the argument of `/model`. */
  function Slash(input: string, kind: SlashKind, model: string): Command {
    match kind
    case QuitCommand => Quit
    case NewCommand => Reset
    case ModelCommand => SwitchModel(model)
    case HelpCommand => Help
    case OtherCommand => UnknownCommand(input)
  }

  /**
   * The command reading as written: the `/model ` prefix is recognised on
   * the lower-cased line but removed case-sensitively from the original.
   */
  function ClassifyAsWritten(line: string): Command {
    var input := TrimSpace(line);
    if input == "" then Blank
    else if HasPrefix(input, "/") then Slash(input, Kind(Lower(input)), TrimSpace(TrimPrefix(input, ModelPrefix)))
    else Ask(input)
  }

  /** The command reading with the prefix removed by length, whatever its case. */
  function Classify(line: string): Command {
    ParseInput(TrimSpace(line))
  }

  /**
   * Quitting, starting over and asking for help are recognised on the
   * trimmed line in any case, and by nothing else.
   */
  lemma ClassifyNames(line: string)
    ensures Classify(line) == Quit <==> Lower(TrimSpace(line)) in QuitWords
    ensures Classify(line) == Reset <==> Lower(TrimSpace(line)) in ResetWords
    ensures Classify(line) == Help <==> Lower(TrimSpace(line)) == HelpWord
  {
    ParseInputNames(TrimSpace(line));
  }

  /** The same on an already trimmed line. */
  lemma ParseInputNames(input: string)
    ensures ParseInput(input) == Quit <==> Lower(input) in QuitWords
    ensures ParseInput(input) == Reset <==> Lower(input) in ResetWords
    ensures ParseInput(input) == Help <==> Lower(input) == HelpWord
  {
    var cmd := Lower(input);
    KindNames(cmd);
    ParseSlashKind(input);
    if cmd in QuitWords || cmd in ResetWords || cmd == HelpWord {
      NamedIsSlash(cmd);
      LowerSlash(input);
    }
  }

  lemma ParseSlashKind(input: string)
    ensures ParseSlash(input) == Quit <==> Kind(Lower(input)) == QuitCommand
    ensures ParseSlash(input) == Reset <==> Kind(Lower(input)) == NewCommand
    ensures ParseSlash(input) == Help <==> Kind(Lower(input)) == HelpCommand
  {
  }

  lemma NamedIsSlash(cmd: string)
    requires cmd in QuitWords || cmd in ResetWords || cmd == HelpWord
    ensures cmd != [] && cmd[0] == '/'
  {
  }

  lemma LowerSlash(input: string)
    requires Lower(input) != [] && Lower(input)[0] == '/'
    ensures input != [] && HasPrefix(input, "/")
  {
    assert LowerChar(input[0]) == '/';
  }

  /** The command an already trimmed line asks for. */
  function ParseInput(input: string): (c: Command)
    ensures c.Blank? <==> input == ""
    ensures c.Ask? <==> input != "" && !HasPrefix(input, "/")
    ensures c.Ask? ==> c.text == input
    ensures c.SwitchModel? ==>
      |input| >= |ModelPrefix| && Lower(input[..|ModelPrefix|]) == ModelPrefix
      && c.model == TrimSpace(input[|ModelPrefix|..])
  {
    if input == "" then Blank
    else if HasPrefix(input, "/") then ParseSlash(input)
    else Ask(input)
  }

  /** A slash line: `/model ` is removed by its length, so any spelling of it goes. */
  function ParseSlash(input: string): (c: Command)
    ensures !c.Blank? && !c.Ask?
    ensures c.SwitchModel? ==>
      |input| >= |ModelPrefix| && Lower(input[..|ModelPrefix|]) == ModelPrefix
      && c.model == TrimSpace(input[|ModelPrefix|..])
  {
    var kind := Kind(Lower(input));
    if kind == ModelCommand then
      ModelArgument(input)
    else Slash(input, kind, "")
  }

  function ModelArgument(input: string): (c: Command)
    requires HasPrefix(Lower(input), ModelPrefix)
    ensures c.SwitchModel? && |input| >= |ModelPrefix| && Lower(input[..|ModelPrefix|]) == ModelPrefix
    ensures c.model == TrimSpace(input[|ModelPrefix|..])
  {
    var n := |ModelPrefix|;
    assert n <= |input| by { assert |Lower(input)| == |input|; }
    assert Lower(input)[..n] == ModelPrefix;
    LowerPrefix(input, n);
    SwitchModel(TrimSpace(input[|ModelPrefix|..]))
  }

  lemma LowerPrefix(s: string, n: nat)
    requires n <= |s|
    ensures Lower(s)[..n] == Lower(s[..n])
  {
  }

  /** A model name as it can follow `/model ` on a trimmed line. */
  predicate IsModelName(m: string) {
    m != [] && !IsSpace(m[0]) && !IsSpace(m[|m| - 1])
  }

  /** `w` is `/model ` in some mix of upper and lower case. */
  predicate SpellsModelPrefix(w: string) {
    |w| == |ModelPrefix| && forall i :: 0 <= i < |w| ==> LowerChar(w[i]) == ModelPrefix[i]
  }

  /** `w + m`, with `w` any spelling of `/model `, is a trimmed line the `/model` case accepts. */
  lemma ModelLine(w: string, m: string)
    requires SpellsModelPrefix(w) && IsModelName(m)
    ensures TrimSpace(w + m) == w + m && HasPrefix(w + m, "/")
    ensures Kind(Lower(w + m)) == ModelCommand
  {
    var line := w + m;
    assert Lower(w) == ModelPrefix;
    assert line[0] == w[0] == '/';
    assert line[|line| - 1] == m[|m| - 1];
    TrimSpaceOfTrimmed(line);
    LowerAppend(w, m);
    var cmd := Lower(line);
    assert cmd[..|ModelPrefix|] == ModelPrefix;
    KindOfModelLine(cmd);
  }

  /**
   * As written, `/model` typed in any other case is recognised, but the
   * new model is the whole line, prefix included.
   */
  lemma AsWrittenKeepsPrefix(w: string, m: string)
    requires SpellsModelPrefix(w) && w != ModelPrefix && IsModelName(m)
    ensures ClassifyAsWritten(w + m) == SwitchModel(w + m)
  {
    ModelLine(w, m);
    OtherSpelling(w, m);
  }

  lemma OtherSpelling(w: string, m: string)
    requires SpellsModelPrefix(w) && w != ModelPrefix && IsModelName(m)
    ensures TrimSpace(TrimPrefix(w + m, ModelPrefix)) == w + m
  {
    var line := w + m;
    assert line[..|w|] == w;
    assert !HasPrefix(line, ModelPrefix);
    assert line[0] == w[0];
    assert line[|line| - 1] == m[|m| - 1];
    TrimSpaceOfTrimmed(line);
  }

  /** The line that shows it: `/Model gpt-4o` switches to the model "/Model gpt-4o". */
  lemma ModelCommandKeepsPrefix(w: string, m: string)
    requires w == "/Model " && m == "gpt-4o"
    ensures ClassifyAsWritten(w + m) == SwitchModel(w + m)
  {
    CapitalModelPrefix(w);
    assert IsModelName(m);
    AsWrittenKeepsPrefix(w, m);
  }

  lemma CapitalModelPrefix(w: string)
    requires w == "/Model "
    ensures SpellsModelPrefix(w) && w != ModelPrefix
  {
    assert w[1] != ModelPrefix[1];
    assert LowerChar('M') == 'm';
    forall i | 0 <= i < |w| ensures LowerChar(w[i]) == ModelPrefix[i] {
      if i != 1 {
        assert w[i] == ModelPrefix[i];
      }
    }
  }

  /** Corrected: `/model` in any case switches to the name that follows it. */
  lemma ModelSwitchAnyCase(w: string, m: string)
    requires SpellsModelPrefix(w) && IsModelName(m)
    ensures Classify(w + m) == SwitchModel(m)
  {
    ModelLine(w, m);
    var line := w + m;
    ParseModelLine(line);
    assert line[|ModelPrefix|..] == m;
    TrimSpaceOfTrimmed(m);
  }

  lemma ParseModelLine(input: string)
    requires Kind(Lower(input)) == ModelCommand
    ensures |input| >= |ModelPrefix| && ParseSlash(input) == SwitchModel(TrimSpace(input[|ModelPrefix|..]))
  {
  }

  /** A string that starts and ends with a non-space is its own `TrimSpace`. */
  lemma TrimSpaceOfTrimmed(s: string)
    requires s != [] && !IsSpace(s[0]) && !IsSpace(s[|s| - 1])
    ensures TrimSpace(s) == s
  {
  }

  /**
   * `runInteractive` before its loop (chat.go:246-264): the provider is
   * created first and the system prompt resolved after it, the reverse of
   * the one-shot order.
   */
  function StartInteractive(providerName: string, cfg: Config.Config, systemFlag: string,
                            readFile: string -> Option<string>): (r: Result<(Factory.Backend, string), CliError>)
    ensures Factory.New(providerName, cfg).Err? ==> r == Err(ProviderFailed(Factory.New(providerName, cfg).error))
    ensures r.Ok? <==> Factory.New(providerName, cfg).Ok? && ResolveSystemPrompt(systemFlag, readFile).Ok?
    ensures r.Ok? ==> r.value == (Factory.New(providerName, cfg).value, ResolveSystemPrompt(systemFlag, readFile).value)
  {
    match Factory.New(providerName, cfg)
    case Err(e) => Err(ProviderFailed(e))
    case Ok(backend) =>
      match ResolveSystemPrompt(systemFlag, readFile)
      case Err(e) => Err(e)
      case Ok(system) => Ok((backend, system))
  }

  /**
   * With both a missing key and an unreadable system prompt file, the
   * interactive start reports the provider and a one-shot call the file.
   */
  lemma StartupOrderDiffers(stdin: Stdin, args: seq<string>, systemFlag: string, readFile: string -> Option<string>,
                            providerName: string, cfg: Config.Config, db: HistoryStore.Db)
    requires Factory.New(providerName, cfg).Err? && ResolveSystemPrompt(systemFlag, readFile).Err?
    requires BuildPrompt(stdin, args).Ok? && Given(BuildPrompt(stdin, args).value)
    ensures StartInteractive(providerName, cfg, systemFlag, readFile).error.ProviderFailed?
    ensures PrepareOneShot(stdin, args, 0, systemFlag, readFile, providerName, cfg, db).error.SystemPromptUnreadable?
  {
  }

  /** The message list a new conversation starts from. */
  function Initial(systemPrompt: string): seq<Message> {
    if systemPrompt != "" then [Message(SystemRole, systemPrompt)] else []
  }

  /** The interactive loop's state between lines. */
  datatype Session = Session(messages: seq<Message>, conv: Option<HistoryStore.Conversation>, model: string,
                             db: HistoryStore.Db)

  /** Everything one line's turn depends on besides the session: the provider's side and the store's. */
  datatype World = World(exchange: Exchange, decoders: Factory.Decoders, cancel: Cancellation,
                         storeOpens: bool, fault: HistoryStore.Fault)

  datatype Next = Continue(session: Session) | Exit

  /** The request a prompt is sent with: the whole conversation so far, then the prompt. */
  function TurnRequest(s: Session, text: string): ChatRequest {
    ChatRequest(s.messages + [Message(UserRole, text)], s.model, 0.0, 0)
  }

  /**
   * The conversation a successful turn saves (chat.go:364-373): the
   * session's, or a new one for the current model and provider, holding
   * just this prompt and its reply.
   */
  function PendingConv(s: Session, text: string, reply: string, backend: Factory.Backend): (c: HistoryStore.Conversation)
    ensures c.messages == [ToHistory(Message(UserRole, text)), ToHistory(Message(AssistantRole, reply))]
    ensures s.conv.None? ==> c.id == 0 && c.title == "" && c.model == s.model && c.provider == Factory.Name(backend)
    ensures s.conv.Some? ==> c == s.conv.value.(messages := c.messages)
  {
    var current := match s.conv
      case None => HistoryStore.Conversation(0, "", s.model, Factory.Name(backend), 0, [])
      case Some(c) => c;
    current.(messages := [ToHistory(Message(UserRole, text)), ToHistory(Message(AssistantRole, reply))])
  }

  /**
   * One prompt (chat.go:322-380). A failed `Chat` drops the user message
   * again; a successful one appends the prompt and the reply and saves the
   * pair, with the conversation created on first use and kept for the
   * next turn.
   */
  function Turn(s: Session, text: string, systemPrompt: string, backend: Factory.Backend, world: World): (r: Session)
    ensures Factory.Chat(backend, TurnRequest(s, text), world.exchange, world.decoders, world.cancel).outcome.Some? ==> r == s
    ensures Factory.Chat(backend, TurnRequest(s, text), world.exchange, world.decoders, world.cancel).outcome.None? ==>
      r.messages == s.messages + [Message(UserRole, text),
        Message(AssistantRole, Reply(Factory.Chat(backend, TurnRequest(s, text), world.exchange, world.decoders, world.cancel)))]
    ensures r.model == s.model
    ensures r.db != s.db ==> world.storeOpens
    ensures var run := Factory.Chat(backend, TurnRequest(s, text), world.exchange, world.decoders, world.cancel);
      run.outcome.None? ==>
        r.conv.Some? && r.conv.value.messages == PendingConv(s, text, Reply(run), backend).messages
        && (s.conv.Some? && s.conv.value.id != 0 ==> r.conv.value.id == s.conv.value.id)
    ensures var run := Factory.Chat(backend, TurnRequest(s, text), world.exchange, world.decoders, world.cancel);
      run.outcome.None? && !world.storeOpens ==>
        r.db == s.db && r.conv == Some(PendingConv(s, text, Reply(run), backend))
    ensures var run := Factory.Chat(backend, TurnRequest(s, text), world.exchange, world.decoders, world.cancel);
      var saved := HistoryStore.SaveConversation(s.db, PendingConv(s, text, Reply(run), backend), world.fault);
      run.outcome.None? && world.storeOpens ==> r.db == saved.db && r.conv == Some(saved.conv)
  {
    var run := Factory.Chat(backend, TurnRequest(s, text), world.exchange, world.decoders, world.cancel);
    if run.outcome.Some? then s
    else
      var reply := Reply(run);
      var messages := s.messages + [Message(UserRole, text), Message(AssistantRole, reply)];
      var conv := PendingConv(s, text, reply, backend);
      if !world.storeOpens then Session(messages, Some(conv), s.model, s.db)
      else
        var saved := HistoryStore.SaveConversation(s.db, conv, world.fault);
        Session(messages, Some(saved.conv), s.model, saved.db)
  }

  /**
   * What a successful turn stores, with the store open and nothing failing:
   * the first turn adds one conversation row for the session's model and the
   * provider, titled after the prompt; later turns add none; either way the
   * prompt and the reply follow as two message rows under the conversation
   * the session keeps.
   */
  lemma TurnStoresExchange(s: Session, text: string, systemPrompt: string, backend: Factory.Backend, world: World)
    requires Factory.Chat(backend, TurnRequest(s, text), world.exchange, world.decoders, world.cancel).outcome.None?
    requires world.storeOpens && world.fault == HistoryStore.NoFault
    requires s.conv.None? || s.conv.value.id != 0
    ensures var r := Turn(s, text, systemPrompt, backend, world);
      var reply := Reply(Factory.Chat(backend, TurnRequest(s, text), world.exchange, world.decoders, world.cancel));
      r.conv.Some?
      && (s.conv.None? ==>
            r.conv.value.id == s.db.nextConvId
            && r.db.convs == s.db.convs + [HistoryStore.ConvRow(r.conv.value.id, Truncate.Truncate(text, HistoryStore.TitleLength),
                                                                s.model, Factory.Name(backend), s.db.clock)])
      && (s.conv.Some? ==> r.conv.value.id == s.conv.value.id && r.db.convs == s.db.convs)
      && StoresPair(s.db, r.db, r.conv.value.id, text, reply)
  {
    var run := Factory.Chat(backend, TurnRequest(s, text), world.exchange, world.decoders, world.cancel);
    var conv := PendingConv(s, text, Reply(run), backend);
    SavePair(s.db, conv);
    if s.conv.None? {
      assert HistoryStore.FirstUser(conv.messages) == Some(0);
    }
  }

  /** `after` is `before` with exactly two message rows appended: the prompt, then the reply, under `id`. */
  predicate StoresPair(before: HistoryStore.Db, after: HistoryStore.Db, id: int, text: string, reply: string) {
    |after.msgs| == |before.msgs| + 2 && after.msgs[..|before.msgs|] == before.msgs
    && after.msgs[|before.msgs|].convId == id
    && after.msgs[|before.msgs|].role == UserRole && after.msgs[|before.msgs|].content == text
    && after.msgs[|before.msgs| + 1].convId == id
    && after.msgs[|before.msgs| + 1].role == AssistantRole && after.msgs[|before.msgs| + 1].content == reply
  }

  /** Saving a prompt and its reply without a fault appends their two rows under the conversation's id. */
  lemma SavePair(db: HistoryStore.Db, conv: HistoryStore.Conversation)
    requires |conv.messages| == 2 && conv.messages[0].id == 0 && conv.messages[1].id == 0
    requires conv.messages[0].role == UserRole && conv.messages[1].role == AssistantRole
    ensures var saved := HistoryStore.SaveConversation(db, conv, HistoryStore.NoFault);
      saved.result.Ok? && StoresPair(db, saved.db, saved.conv.id, conv.messages[0].content, conv.messages[1].content)
  {
    HistoryStore.UnsavedAllNew(conv.messages);
    var saved := HistoryStore.SaveConversation(db, conv, HistoryStore.NoFault);
    var added := saved.db.msgs[|db.msgs|..];
    assert HistoryStore.StoresAll(added, saved.conv.id, conv.messages);
    assert HistoryStore.Stores(added[0], saved.conv.id, conv.messages[0]);
    assert HistoryStore.Stores(added[1], saved.conv.id, conv.messages[1]);
  }

  /** One line of the interactive loop. */
  function Step(s: Session, line: string, systemPrompt: string, backend: Factory.Backend, world: World): (r: Next)
    ensures Classify(line) == Quit <==> r == Exit
    ensures Classify(line) == Reset ==> r == Continue(s.(messages := Initial(systemPrompt), conv := None))
    ensures Classify(line).SwitchModel? ==> r == Continue(s.(model := Classify(line).model))
    ensures Classify(line).Blank? || Classify(line).Help? || Classify(line).UnknownCommand? ==> r == Continue(s)
    ensures Classify(line).Ask? ==> r == Continue(Turn(s, Classify(line).text, systemPrompt, backend, world))
    ensures r == Exit <==> Lower(TrimSpace(line)) in QuitWords
    ensures Lower(TrimSpace(line)) in ResetWords ==> r == Continue(s.(messages := Initial(systemPrompt), conv := None))
    ensures Lower(TrimSpace(line)) == HelpWord ==> r == Continue(s)
  {
    ClassifyNames(line);
    match Classify(line)
    case Blank => Continue(s)
    case Quit => Exit
    case Reset => Continue(s.(messages := Initial(systemPrompt), conv := None))
    case SwitchModel(m) => Continue(s.(model := m))
    case Help => Continue(s)
    case UnknownCommand(_) => Continue(s)
    case Ask(text) => Continue(Turn(s, text, systemPrompt, backend, world))
  }

  /** After the opening messages, the history alternates prompt and reply. */
  predicate Alternates(turns: seq<Message>) {
    |turns| % 2 == 0
    && forall i :: 0 <= i < |turns| ==> turns[i].role == (if i % 2 == 0 then UserRole else AssistantRole)
  }

  /** The shape of the message list the loop keeps. */
  predicate WellFormed(messages: seq<Message>, systemPrompt: string) {
    var start := Initial(systemPrompt);
    |start| <= |messages| && messages[..|start|] == start && Alternates(messages[|start|..])
  }

  /**
   * The store stays consistent: every message row belongs to a conversation
   * row, and the conversation the session holds is either unsaved or present.
   */
  predicate Consistent(s: Session) {
    HistoryStore.Valid(s.db) && HistoryStore.Linked(s.db)
    && (s.conv.None? || s.conv.value.id == 0 || HistoryStore.HasConv(s.db, s.conv.value.id))
  }

  lemma AppendTurnAlternates(messages: seq<Message>, systemPrompt: string, user: Message, reply: Message)
    requires WellFormed(messages, systemPrompt)
    requires user.role == UserRole && reply.role == AssistantRole
    ensures WellFormed(messages + [user, reply], systemPrompt)
  {
    var start := Initial(systemPrompt);
    var m := messages + [user, reply];
    assert m[..|start|] == messages[..|start|];
    var turns, turns' := messages[|start|..], m[|start|..];
    assert turns' == turns + [user, reply];
    forall i | 0 <= i < |turns'| ensures turns'[i].role == (if i % 2 == 0 then UserRole else AssistantRole) {
      if i < |turns| {
        assert turns'[i] == turns[i];
      }
    }
  }

  /** A prompt keeps the message list well formed and the store consistent, whether it succeeds or not. */
  lemma TurnPreserves(s: Session, text: string, systemPrompt: string, backend: Factory.Backend, world: World)
    requires WellFormed(s.messages, systemPrompt) && Consistent(s)
    ensures WellFormed(Turn(s, text, systemPrompt, backend, world).messages, systemPrompt)
    ensures Consistent(Turn(s, text, systemPrompt, backend, world))
  {
    var run := Factory.Chat(backend, TurnRequest(s, text), world.exchange, world.decoders, world.cancel);
    if run.outcome.None? {
      AppendTurnAlternates(s.messages, systemPrompt, Message(UserRole, text), Message(AssistantRole, Reply(run)));
      var conv := PendingConv(s, text, Reply(run), backend);
      if world.storeOpens {
        SavePreservesConsistency(s.db, conv, world.fault);
      }
    }
  }

  /** Saving a conversation the session holds leaves the store consistent and the conversation findable. */
  lemma SavePreservesConsistency(db: HistoryStore.Db, conv: HistoryStore.Conversation, fault: HistoryStore.Fault)
    requires HistoryStore.Valid(db) && HistoryStore.Linked(db)
    requires conv.id == 0 || HistoryStore.HasConv(db, conv.id)
    ensures var saved := HistoryStore.SaveConversation(db, conv, fault);
      HistoryStore.Valid(saved.db) && HistoryStore.Linked(saved.db)
      && (saved.conv.id == 0 || HistoryStore.HasConv(saved.db, saved.conv.id))
  {
    HistoryStore.SaveKeepsLinked(db, conv, fault);
    var saved := HistoryStore.SaveConversation(db, conv, fault);
    if saved.result.Ok? && conv.id != 0 {
      var c :| c in db.convs && c.id == conv.id;
      assert c in saved.db.convs;
    }
    if saved.result.Ok? && conv.id == 0 {
      assert saved.db.convs[|db.convs|] in saved.db.convs;
    }
  }

  /** Every line keeps the message list well formed and the store consistent. */
  lemma StepPreserves(s: Session, line: string, systemPrompt: string, backend: Factory.Backend, world: World)
    requires WellFormed(s.messages, systemPrompt) && Consistent(s)
    ensures Step(s, line, systemPrompt, backend, world).Continue? ==>
      WellFormed(Step(s, line, systemPrompt, backend, world).session.messages, systemPrompt)
      && Consistent(Step(s, line, systemPrompt, backend, world).session)
  {
    match Classify(line)
    case Reset => InitialWellFormed(systemPrompt);
    case Ask(text) => TurnPreserves(s, text, systemPrompt, backend, world);
    case Blank =>
    case Quit =>
    case SwitchModel(_) =>
    case Help =>
    case UnknownCommand(_) =>
  }

  lemma InitialWellFormed(systemPrompt: string)
    ensures WellFormed(Initial(systemPrompt), systemPrompt)
  {
    assert Initial(systemPrompt)[..|Initial(systemPrompt)|] == Initial(systemPrompt);
    assert Initial(systemPrompt)[|Initial(systemPrompt)|..] == [];
  }

  /** The lines the loop reads until end of input or `/quit`, each with the world its turn meets. */
  function RunSession(s: Session, lines: seq<(string, World)>, systemPrompt: string, backend: Factory.Backend): Session
    decreases |lines|
  {
    if lines == [] then s
    else match Step(s, lines[0].0, systemPrompt, backend, lines[0].1)
      case Exit => s
      case Continue(s') => RunSession(s', lines[1..], systemPrompt, backend)
  }

  /** However the session goes, its messages stay well formed and the store consistent. */
  lemma {:induction false} SessionInvariant(s: Session, lines: seq<(string, World)>, systemPrompt: string, backend: Factory.Backend)
    requires WellFormed(s.messages, systemPrompt) && Consistent(s)
    ensures WellFormed(RunSession(s, lines, systemPrompt, backend).messages, systemPrompt)
    ensures Consistent(RunSession(s, lines, systemPrompt, backend))
    decreases |lines|
  {
    if lines != [] {
      StepPreserves(s, lines[0].0, systemPrompt, backend, lines[0].1);
      match Step(s, lines[0].0, systemPrompt, backend, lines[0].1)
      case Exit =>
      case Continue(s') => SessionInvariant(s', lines[1..], systemPrompt, backend);
    }
  }
}
