/** The shell session: its transcript, its queue of lines, and the child it runs. Every handler
    reports one event when anything visible changed. */
module CommandSurfaces {
  import opened Protocol
  import opened Sequences
  import opened Texts
  import opened ShellEvents
  import opened EffectQueue

  datatype CdOutcome = Moved(path: string) | NoHome | NotDirectory | CdFailed(message: string)

  /** What the surface takes from its surroundings: how the prompt shows a directory, where a
      directory change leads, and how alias and export tables are rendered as text. */
  datatype Platform = Platform(
    prompt: string -> string,
    cd: (string, string) -> CdOutcome,
    listing: map<string, string> -> seq<string>,
    exports: map<string, string> -> string,
    help: seq<string>,
    persistent: bool)

  datatype Stream = ToStdout | ToStderr

  /** One line of output; lines from a worker carry its sequence number. */
  datatype OutputLine = OutputLine(stream: Stream, text: string, sequence: Option<nat>)

  /** How a child ended; `message` is the status text shown when it failed. */
  datatype Completion = Exited(success: bool, message: string)

  datatype Running = Running(workerSequence: nat, disconnected: bool, completion: Option<Completion>)

  datatype ShellEffect =
    | PrepareWorker
    | Run(command: string, cwd: string)
    | WorkerRun(commandId: nat, command: string, cwd: string, after: nat)

  datatype EffectRequest = EffectRequest(delivery: Delivery, effect: ShellEffect)

  datatype Launch = Launch(commandId: nat, command: string, cwd: string, reconnect: bool)

  datatype ShellCommand =
    | Prepare
    | SetWorkingDirectory(path: Option<string>)
    | Submit(line: string)
    | Interrupt(failure: Option<string>)
    | Clear
    | QueueStatus
    | CancelQueued(target: string)

  datatype EffectOutcome = Prepared | Launched | PrepareFailed | OutcomeUnknown | LaunchFailed(message: string)

  // ----- what the shell's own commands do, on values -----

  function Prune(transcript: seq<Entry>): seq<Entry> {
    LastN(transcript, MAX_TRANSCRIPT)
  }

  function Lines(kind: Kind, texts: seq<string>): (r: seq<Entry>)
    ensures |r| == |texts|
  {
    seq(|texts|, i requires 0 <= i < |texts| => Entry(kind, texts[i]))
  }

  function Remember(history: seq<string>, line: string): seq<string> {
    if history != [] && history[|history| - 1] == line then history else LastN(history + [line], MAX_HISTORY)
  }

  /** A line that was accepted is the newest of the history; it is not kept twice in a row, and
      only the oldest lines are forgotten. */
  lemma RememberIs(history: seq<string>, line: string)
    requires |history| <= MAX_HISTORY
    ensures var r := Remember(history, line);
            && r != [] && r[|r| - 1] == line
            && if history != [] && history[|history| - 1] == line then r == history
               else |r| == Min(|history| + 1, MAX_HISTORY) && r[..|r| - 1] == history[|history| - (|r| - 1)..]
  {
  }

  function Numbered(lines: seq<string>): (r: seq<string>)
    ensures |r| == |lines|
  {
    seq(|lines|, i requires 0 <= i < |lines| => PadLeft(Decimal(i + 1), 4) + "  " + lines[i])
  }

  function CancelTarget(pending: seq<string>, arguments: string): seq<string> {
    var target := Trim(arguments);
    var index := ParseIndex(target);
    if target == "all" then []
    else if CancelsSomething(pending, arguments) then pending[..index.value - 1] + pending[index.value..]
    else pending
  }

  /** One line of this kind was added to the transcript. */
  ghost predicate Said(before: seq<Entry>, after: seq<Entry>, kind: Kind) {
    exists text :: after == Prune(before + [Entry(kind, text)])
  }

  predicate CancelsSomething(pending: seq<string>, arguments: string) {
    var index := ParseIndex(Trim(arguments));
    Trim(arguments) == "all" || (index.Some? && 0 < index.value <= |pending|)
  }

  predicate GoodAlias(arguments: string) {
    var (name, command) := SplitCommand(Trim(arguments));
    name != "" && command != "" && IsCommandName(name)
  }

  predicate GoodExport(arguments: string) {
    var parts := SplitAssignment(arguments);
    parts.Some? && IsVariableName(Trim(parts.value.0))
  }

  function AddAlias(commands: map<string, string>, arguments: string): map<string, string> {
    var (name, command) := SplitCommand(Trim(arguments));
    if GoodAlias(arguments) then commands[name := command] else commands
  }

  function AliasText(arguments: string): Option<string> {
    var parts := SplitAssignment(arguments);
    if parts.None? then None else Some(Trim(parts.value.0) + " " + Unquote(Trim(parts.value.1)))
  }

  function Export(environment: map<string, string>, arguments: string): map<string, string> {
    var parts := SplitAssignment(arguments);
    if !GoodExport(arguments) then environment
    else environment[Trim(parts.value.0) := Unquote(Trim(parts.value.1))]
  }

  function Unset(environment: map<string, string>, arguments: string): map<string, string> {
    if IsVariableName(Trim(arguments)) then environment - {Trim(arguments)} else environment
  }

  function RemoveAlias(commands: map<string, string>, arguments: string): map<string, string> {
    if Trim(arguments) == "" then commands else commands - {Trim(arguments)}
  }

  datatype Builtin =
    | Leave | Erase | Help | ListAliases | ListQueue | Cancel | ListHistory
    | AddOne | RemoveOne | SetVariable | UnsetOne | Alias | MoveTo

  /** The words that the shell handles itself. */
  function Classify(name: string): Option<Builtin> {
    if name == ":quit" || name == ":detach" || name == "exit" then Some(Leave)
    else if name == ":clear" || name == "clear" then Some(Erase)
    else if name == ":help" then Some(Help)
    else if name == ":commands" then Some(ListAliases)
    else if name == ":queue" then Some(ListQueue)
    else if name == ":cancel" then Some(Cancel)
    else if name == ":history" || name == "history" then Some(ListHistory)
    else if name == ":add" then Some(AddOne)
    else if name == ":remove" || name == "unalias" then Some(RemoveOne)
    else if name == "export" then Some(SetVariable)
    else if name == "unset" then Some(UnsetOne)
    else if name == "alias" then Some(Alias)
    else if name == ":cd" || name == "cd" then Some(MoveTo)
    else None
  }

  function AliasesAfter(builtin: Builtin, commands: map<string, string>, arguments: string): map<string, string> {
    match builtin
    case AddOne => AddAlias(commands, arguments)
    case RemoveOne => RemoveAlias(commands, arguments)
    case Alias =>
      if Trim(arguments) == "" || AliasText(arguments).None? then commands
      else AddAlias(commands, AliasText(arguments).value)
    case _ => commands
  }

  function VariablesAfter(builtin: Builtin, environment: map<string, string>, arguments: string): map<string, string> {
    match builtin
    case SetVariable => Export(environment, arguments)
    case UnsetOne => Unset(environment, arguments)
    case _ => environment
  }

  function AliasList(platform: Platform, commands: map<string, string>): seq<Entry> {
    if commands == map[] then [Entry(System, "No commands added this session.")]
    else Lines(Stdout, platform.listing(commands))
  }

  function QueueList(pending: seq<string>): seq<Entry> {
    if pending == [] then [Entry(System, "No commands are queued.")] else Lines(Stdout, Numbered(pending))
  }

  /** What a word that the shell handles adds to the transcript. */
  ghost predicate Told(
    platform: Platform, builtin: Builtin, arguments: string, before: Persisted, after: seq<Entry>)
  {
    match builtin
    case Leave => after == before.transcript
    case Erase => after == []
    case Help => after == Prune(before.transcript + Lines(System, platform.help))
    case ListAliases => after == Prune(before.transcript + AliasList(platform, before.rest.commands))
    case ListQueue => after == Prune(before.transcript + QueueList(before.rest.pending))
    case ListHistory => after == Prune(before.transcript + Lines(Stdout, Numbered(before.rest.history)))
    case Cancel =>
      Said(before.transcript, after, if CancelsSomething(before.rest.pending, arguments) then System else Error)
    case AddOne => Said(before.transcript, after, if GoodAlias(arguments) then System else Error)
    case RemoveOne =>
      var known := Trim(arguments) != "" && Trim(arguments) in before.rest.commands;
      Said(before.transcript, after, if known then System else Error)
    case SetVariable => Said(before.transcript, after, if GoodExport(arguments) then System else Error)
    case UnsetOne => Said(before.transcript, after, if IsVariableName(Trim(arguments)) then System else Error)
    case Alias =>
      if Trim(arguments) == "" then after == Prune(before.transcript + AliasList(platform, before.rest.commands))
      else
        var good := AliasText(arguments).Some? && GoodAlias(AliasText(arguments).value);
        Said(before.transcript, after, if good then System else Error)
    case MoveTo =>
      if platform.cd(before.rest.cwd, arguments).Moved? then after == before.transcript
      else Said(before.transcript, after, Error)
  }

  /** Only a directory change touches the failure flag. */
  function FailedAfter(platform: Platform, builtin: Builtin, arguments: string, before: Recovery): bool {
    if !builtin.MoveTo? then before.failed
    else
      match platform.cd(before.cwd, arguments)
      case Moved(_) => false
      case NoHome => before.failed
      case _ => true
  }

  /** The queue once the line of the started command has left its front. */
  function Unqueued(pending: seq<string>, started: Option<string>): seq<string> {
    if pending != [] && started == Some(pending[0]) then pending[1..] else pending
  }

  /** What is said when an effect did not start its command. */
  function FailureText(outcome: EffectOutcome, started: Option<string>): string {
    if outcome.LaunchFailed? then CouldNotStart(outcome.message)
    else if started.None? then OutcomeUnknownText()
    else CouldNotStart(UnknownOutcomeError())
  }

  function CouldNotStart(message: string): string {
    "Could not start command: " + message
  }

  function VariableNameHelp(): string {
    "Environment names must begin with a letter or '_' and contain only letters, numbers, and '_'."
  }

  function Interrupted(command: string): string {
    "Resident restarted while this command was running: " + command
  }

  function OutcomeUnknownText(): string {
    "The command may have started, but its outcome could not be recovered."
  }

  /** The command line that runs for a line: an alias is replaced by its text. */
  function Expand(commands: map<string, string>, line: string): string {
    var (name, arguments) := SplitCommand(line);
    if name !in commands then line
    else if arguments == "" then commands[name]
    else commands[name] + " " + arguments
  }

  function Exporting(platform: Platform, environment: map<string, string>, command: string): string {
    if environment == map[] then command else platform.exports(environment) + "; " + command
  }

  /** However a line is spaced: an alias runs its text with the arguments behind one space, and
      any other line runs as it is. */
  lemma ExpandIs(
    commands: map<string, string>, lead: string, word: string, gap: string, arguments: string, tail: string)
    requires Spaces(lead) && IsWord(word) && Spaces(gap) && Trimmed(arguments) && Spaces(tail)
    requires arguments != "" ==> gap != ""
    ensures var line := lead + word + gap + arguments + tail;
            Expand(commands, line)
            == if word !in commands then line
               else commands[word] + if arguments == "" then "" else " " + arguments
  {
    SplitIs(lead, word, gap, arguments, tail);
  }

  /** A word alone, or a word, a space and arguments. */
  function Typed(word: string, arguments: string): string {
    if arguments == "" then word else word + " " + arguments
  }

  lemma ExpandPlain(commands: map<string, string>, word: string, arguments: string)
    requires IsWord(word) && Trimmed(arguments)
    ensures Expand(commands, Typed(word, arguments))
            == if word in commands then Typed(commands[word], arguments) else Typed(word, arguments)
  {
    SplitPlain(word, arguments);
  }

  /** What the words that edit tables are for: they set and remove exactly the named entry. */
  lemma TablesChange(table: map<string, string>, name: string, text: string)
    requires IsCommandName(name) && name != "" && Trimmed(text) && text != ""
    ensures AliasesAfter(AddOne, table, name + " " + text) == table[name := text]
    ensures AliasesAfter(RemoveOne, table, name) == table - {name}
    ensures Trim(Unquote(text)) == Unquote(text) != "" ==>
              AliasesAfter(Alias, table, name + "=" + text) == table[name := Unquote(text)]
    ensures IsVariableName(name) ==>
              && VariablesAfter(SetVariable, table, name + "=" + text) == table[name := Unquote(text)]
              && VariablesAfter(UnsetOne, table, name) == table - {name}
  {
    hide SplitCommand, Trim, SplitAssignment, Unquote;
    NamesAreWords(name);
    AliasIs(table, name, text);
    TrimOfTrimmed(name);
    TrimOfTrimmed(text);
    AssignmentIs(name, text);
    assert (name + "=" + text)[0] == name[0];
    NotBlank(name + "=" + text);
    if Trim(Unquote(text)) == Unquote(text) != "" {
      TrimIsTrimmed(Unquote(text));
      AliasIs(table, name, Unquote(text));
    }
  }

  lemma AliasIs(table: map<string, string>, name: string, text: string)
    requires IsCommandName(name) && IsWord(name) && Trimmed(text) && text != ""
    ensures GoodAlias(name + " " + text) && AddAlias(table, name + " " + text) == table[name := text]
  {
    hide SplitCommand, Trim;
    TrimOfTrimmed(name + " " + text);
    SplitPlain(name, text);
  }

  lemma NamesAreWords(name: string)
    requires IsCommandName(name) && name != ""
    ensures IsWord(name) && Trimmed(name) && '=' !in name
  {
  }

  lemma TrimIsTrimmed(text: string)
    ensures Trimmed(Trim(text))
  {
    var _, _ := TrimParts(text);
  }

  lemma NotBlank(text: string)
    requires text != "" && !IsWhitespace(text[0])
    ensures Trim(text) != ""
  {
    var _, _ := TrimParts(text);
  }

  /** Cancelling by a number removes exactly the line that the queue lists under it; `all`
      removes every line. */
  lemma CancelTakes(pending: seq<string>, n: nat)
    requires 1 <= n <= |pending| <= MAX_INDEX
    ensures CancelTarget(pending, Decimal(n)) == pending[..n - 1] + pending[n..]
    ensures var listed := QueueList(pending);
            |listed| == |pending| && listed[n - 1].text == PadLeft(Decimal(n), 4) + "  " + pending[n - 1]
    ensures CancelTarget(pending, "all") == []
  {
    hide ParseIndex, Trim, Decimal, PadLeft, QueueList, Trimmed;
    DecimalRoundTrip(n);
    NumbersAreTrimmed(n);
    TrimOfTrimmed(Decimal(n));
    TrimOfTrimmed("all");
    QueueIsNumbered(pending, n);
  }

  lemma NumbersAreTrimmed(n: nat)
    ensures Trimmed(Decimal(n)) && Trimmed("all") && Decimal(n) != "all"
  {
    hide Decimal;
    assert IsDigit(Decimal(n)[0]);
  }

  lemma QueueIsNumbered(pending: seq<string>, n: nat)
    requires 1 <= n <= |pending|
    ensures var listed := QueueList(pending);
            |listed| == |pending| && listed[n - 1].text == PadLeft(Decimal(n), 4) + "  " + pending[n - 1]
  {
    hide Decimal, PadLeft;
    assert Lines(Stdout, Numbered(pending))[n - 1] == Entry(Stdout, Numbered(pending)[n - 1]);
  }

  /** Lines a poll shows: a worker's line only if it is newer than the last one shown. */
  function Visible(lines: seq<OutputLine>, shown: nat): seq<Entry> {
    if lines == [] then []
    else
      var line := lines[0];
      if line.sequence.Some? && line.sequence.value <= shown then Visible(lines[1..], shown)
      else [Entry(if line.stream.ToStdout? then Stdout else Stderr, line.text)]
           + Visible(lines[1..], if line.sequence.Some? then line.sequence.value else shown)
  }

  function Newest(lines: seq<OutputLine>, shown: nat): (r: nat)
    ensures r >= shown
  {
    if lines == [] then shown
    else if lines[0].sequence.Some? && lines[0].sequence.value > shown then Newest(lines[1..], lines[0].sequence.value)
    else Newest(lines[1..], shown)
  }

  lemma {:induction false} SomethingShown(lines: seq<OutputLine>, shown: nat)
    ensures Newest(lines, shown) > shown ==> Visible(lines, shown) != []
  {
    if lines != [] {
      SomethingShown(lines[1..], shown);
    }
  }

  /** Output that is delivered again is shown once: the lines of a worker shown by two polls
      are the lines one poll of all of them would show. */
  lemma {:induction false} RepeatsAreHidden(first: seq<OutputLine>, second: seq<OutputLine>, shown: nat)
    ensures Visible(first + second, shown) == Visible(first, shown) + Visible(second, Newest(first, shown))
    ensures Newest(first + second, shown) == Newest(second, Newest(first, shown))
  {
    if first == [] {
      assert first + second == second;
    } else {
      assert (first + second)[1..] == first[1..] + second;
      var next := if first[0].sequence.Some? && first[0].sequence.value > shown then first[0].sequence.value else shown;
      RepeatsAreHidden(first[1..], second, next);
    }
  }

  /** Lines that bring nothing old, numbered upwards or not numbered at all, are all shown, in
      order, and the newest number is remembered. */
  lemma {:induction false} FreshLinesAreShown(lines: seq<OutputLine>, shown: nat)
    requires forall i :: 0 <= i < |lines| && lines[i].sequence.Some? ==> lines[i].sequence.value > shown
    requires forall i, j :: 0 <= i < j < |lines| && lines[i].sequence.Some? && lines[j].sequence.Some? ==>
               lines[i].sequence.value < lines[j].sequence.value
    ensures |Visible(lines, shown)| == |lines|
    ensures forall i :: 0 <= i < |lines| ==>
              Visible(lines, shown)[i] == Entry(if lines[i].stream.ToStdout? then Stdout else Stderr, lines[i].text)
    ensures forall i :: 0 <= i < |lines| && lines[i].sequence.Some? ==> Newest(lines, shown) >= lines[i].sequence.value
    ensures Newest(lines, shown) == shown
            || exists i :: 0 <= i < |lines| && lines[i].sequence == Some(Newest(lines, shown))
  {
    if lines != [] {
      var next, rest := if lines[0].sequence.Some? then lines[0].sequence.value else shown, lines[1..];
      forall i | 0 <= i < |rest| && rest[i].sequence.Some? ensures rest[i].sequence.value > next {
        assert rest[i] == lines[i + 1];
      }
      FreshLinesAreShown(rest, next);
      assert forall i :: 0 <= i < |rest| ==> rest[i] == lines[i + 1];
      if exists i :: 0 <= i < |rest| && rest[i].sequence == Some(Newest(rest, next)) {
        var i :| 0 <= i < |rest| && rest[i].sequence == Some(Newest(rest, next));
        assert lines[i + 1].sequence == Some(Newest(lines, shown));
      }
    }
  }

  lemma NoLines(shown: nat)
    ensures Visible([], shown) == [] && Newest([], shown) == shown
  {
  }

  lemma OneLine(line: OutputLine, shown: nat)
    ensures Visible([line], shown)
            == if line.sequence.Some? && line.sequence.value <= shown then []
               else [Entry(if line.stream.ToStdout? then Stdout else Stderr, line.text)]
    ensures Newest([line],
                   shown) == if line.sequence.Some? && line.sequence.value > shown then line.sequence.value else shown
  {
    assert [line][1..] == [];
  }

  /** A replay of lines that were all shown before shows nothing. */
  lemma {:induction false} OldLinesShowNothing(lines: seq<OutputLine>, shown: nat)
    requires forall i :: 0 <= i < |lines| ==> lines[i].sequence.Some? && lines[i].sequence.value <= shown
    ensures Visible(lines, shown) == [] && Newest(lines, shown) == shown
  {
    if lines != [] {
      OldLinesShowNothing(lines[1..], shown);
    }
  }

  class CommandSurface {
    const platform: Platform
    var transcript: seq<Entry>
    var history: seq<string>
    var commands: map<string, string>
    var environment: map<string, string>
    var pending: seq<string>
    var startedCommand: Option<string>
    var startedId: Option<nat>
    var nextId: nat
    var cwd: string
    var running: Option<Running>
    var reconnectScheduled: bool
    var lastWorkerSequence: nat
    var workerRecoverable: bool
    var lastFailed: bool
    var revision: nat

    /** The limits hold, the started command has an identity below the next one, and a running
        child's position is the recorded one. */
    ghost predicate Valid()
      reads this
    {
      && |transcript| <= MAX_TRANSCRIPT && |history| <= MAX_HISTORY
      && nextId >= 1
      && (startedCommand.Some? <==> startedId.Some?)
      && (startedId.Some? ==> startedId.value < nextId)
      && (running.Some? ==> running.value.workerSequence == lastWorkerSequence)
    }

    function State(): Persisted
      reads this
    {
      Persisted(transcript, RecoveryState())
    }

    function RecoveryState(): Recovery
      reads this
    {
      Recovery(history, commands, environment, pending, cwd, startedCommand, startedId, nextId,
               if running.Some? then running.value.workerSequence else lastWorkerSequence,
               workerRecoverable, lastFailed, revision)
    }

    function Shown(): Snapshot
      reads this
    {
      Snapshot(revision, transcript, history, commands.Keys, platform.prompt(cwd), running.Some?, lastFailed, |pending|)
    }

    /** Durable state changes only together with the revision. */
    twostate predicate Touched()
      reads this
    {
      old(revision) < revision || State() == old(State())
    }

    // ----- primitive changes -----

    method Touch()
      modifies this`revision
      ensures revision == old(revision) + 1
    {
      revision := revision + 1;
    }

    method Push(kind: Kind, text: string)
      requires Valid()
      modifies this`transcript, this`revision
      ensures Valid() && transcript == Prune(old(transcript) + [Entry(kind, text)]) && revision == old(revision) + 1
      ensures Said(old(transcript), transcript, kind)
    {
      transcript := transcript + [Entry(kind, text)];
      if |transcript| > MAX_TRANSCRIPT {
        transcript := transcript[|transcript| - MAX_TRANSCRIPT..];
      }
      Touch();
    }

    method PushAll(entries: seq<Entry>)
      requires Valid()
      modifies this`transcript, this`revision
      ensures Valid() && transcript == Prune(old(transcript) + entries) && revision == old(revision) + |entries|
      ensures entries == [] ==> transcript == old(transcript)
    {
      ghost var first := transcript;
      assert first + entries[..0] == first;
      for i := 0 to |entries|
        invariant Valid() && transcript == Prune(first + entries[..i]) && revision == old(revision) + i
      {
        Push(entries[i].kind, entries[i].text);
        LastNAppend(first + entries[..i], [entries[i]], MAX_TRANSCRIPT);
        assert first + entries[..i] + [entries[i]] == first + entries[..i + 1];
      }
      assert entries[..|entries|] == entries;
    }

    method ChangeDirectory(path: string)
      requires Valid()
      modifies this`cwd, this`lastFailed, this`revision
      ensures Valid() && cwd == path && !lastFailed && revision == old(revision) + 1
    {
      cwd := path;
      lastFailed := false;
      Touch();
    }

    /** Takes a line: into the history unless it repeats the last one, into the transcript, and
        onto the queue. */
    method AcceptLine(line: string)
      requires Valid()
      modifies this`transcript, this`history, this`pending, this`revision
      ensures Valid()
      ensures line == "" ==> State() == old(State())
      ensures line != "" ==>
                && history == Remember(old(history), line)
                && transcript == Prune(old(transcript) + [Entry(Kind.Command, "$ " + line)])
                && pending == old(pending) + [line] && revision == old(revision) + 1
    {
      if line == "" {
        return;
      }
      if history == [] || history[|history| - 1] != line {
        history := history + [line];
        if |history| > MAX_HISTORY {
          history := history[|history| - MAX_HISTORY..];
        }
      }
      Push(Kind.Command, "$ " + line);
      pending := pending + [line];
    }

    // ----- the shell's own commands -----

    method ShowCommands()
      requires Valid()
      modifies this`transcript, this`revision
      ensures Valid() && revision >= old(revision) && (revision == old(revision) ==> transcript == old(transcript))
      ensures transcript == Prune(old(transcript) + AliasList(platform, commands))
    {
      if commands == map[] {
        Push(System, "No commands added this session.");
      } else {
        PushAll(Lines(Stdout, platform.listing(commands)));
      }
    }

    method ShowQueue()
      requires Valid()
      modifies this`transcript, this`revision
      ensures Valid() && revision > old(revision)
      ensures transcript == Prune(old(transcript) + QueueList(pending))
    {
      if pending == [] {
        Push(System, "No commands are queued.");
      } else {
        PushAll(Lines(Stdout, Numbered(pending)));
      }
    }

    method CancelQueued(arguments: string)
      requires Valid()
      modifies this`transcript, this`pending, this`revision
      ensures Valid() && revision == old(revision) + 1 && pending == CancelTarget(old(pending), arguments)
      ensures Said(old(transcript), transcript, if CancelsSomething(old(pending), arguments) then System else Error)
    {
      hide Trim, ParseIndex, Prune, Decimal, Said;
      var target := Trim(arguments);
      if target == "all" {
        var removed := |pending|;
        pending := [];
        Push(System, "Cancelled " + Decimal(removed) + " queued command" + (if removed == 1 then "" else "s") + ".");
        return;
      }
      var index := ParseIndex(target);
      if index.None? {
        Push(Error, "Usage: :cancel <queue-number|all>");
        return;
      }
      if index.value == 0 || index.value > |pending| {
        Push(Error, "Queue entry " + Decimal(index.value) + " does not exist. Use :queue to inspect the queue.");
        return;
      }
      var command := pending[index.value - 1];
      pending := pending[..index.value - 1] + pending[index.value..];
      Push(System, "Cancelled queued command: " + command);
    }

    method AddCommand(arguments: string)
      requires Valid()
      modifies this`transcript, this`commands, this`revision
      ensures Valid() && revision == old(revision) + 1 && commands == AddAlias(old(commands), arguments)
      ensures Said(old(transcript), transcript, if GoodAlias(arguments) then System else Error)
    {
      hide Trim, SplitCommand, IsCommandName, Prune, Said;
      var (name, command) := SplitCommand(Trim(arguments));
      if name == "" || command == "" {
        Push(Error, "Usage: :add <name> <shell command>");
        return;
      }
      if !IsCommandName(name) {
        Push(Error, "Command names may contain only letters, numbers, '-' and '_'.");
        return;
      }
      var verb := if name in commands then "Updated" else "Added";
      commands := commands[name := command];
      Push(System, verb + " command '" + name + "' \U{2192} " + command);
    }

    method RemoveCommand(arguments: string)
      requires Valid()
      modifies this`transcript, this`commands, this`revision
      ensures Valid() && revision == old(revision) + 1 && commands == RemoveAlias(old(commands), arguments)
      ensures Said(old(transcript), transcript,
                   if Trim(arguments) != "" && Trim(arguments) in old(commands) then System else Error)
    {
      hide Prune, Said, Trim;
      var name := Trim(arguments);
      if name == "" {
        Push(Error, "Usage: :remove <name>");
      } else if name in commands {
        commands := commands - {name};
        Push(System, "Removed command '" + name + "'.");
      } else {
        Push(Error, "No command named '" + name + "'.");
      }
    }

    method ExportVariable(arguments: string)
      requires Valid()
      modifies this`transcript, this`environment, this`revision
      ensures Valid() && revision == old(revision) + 1 && environment == Export(old(environment), arguments)
      ensures Said(old(transcript), transcript, if GoodExport(arguments) then System else Error)
    {
      hide Trim, Unquote, IsVariableName, SplitAssignment, Prune, VariableNameHelp, Said;
      var parts := SplitAssignment(arguments);
      if parts.None? {
        Push(Error, "Usage: export NAME=value");
        return;
      }
      var name := Trim(parts.value.0);
      if !IsVariableName(name) {
        Push(Error, VariableNameHelp());
        return;
      }
      environment := environment[name := Unquote(Trim(parts.value.1))];
      Push(System, "Exported " + name + " for future commands.");
    }

    method UnsetVariable(arguments: string)
      requires Valid()
      modifies this`transcript, this`environment, this`revision
      ensures Valid() && revision == old(revision) + 1 && environment == Unset(old(environment), arguments)
      ensures Said(old(transcript), transcript, if IsVariableName(Trim(arguments)) then System else Error)
    {
      hide Prune, Said, Trim, IsVariableName;
      var name := Trim(arguments);
      if !IsVariableName(name) {
        Push(Error, "Usage: unset NAME");
        return;
      }
      environment := environment - {name};
      Push(System, "Unset " + name + ".");
    }

    method AliasCommand(arguments: string)
      requires Valid()
      modifies this`transcript, this`commands, this`revision
      ensures Valid() && revision >= old(revision)
      ensures revision == old(revision) ==> transcript == old(transcript) && commands == old(commands)
      ensures commands == if Trim(arguments) == "" || AliasText(arguments).None? then old(commands)
                          else AddAlias(old(commands), AliasText(arguments).value)
      ensures Told(platform, Alias, arguments, old(State()), transcript)
    {
      hide Trim, Prune, AliasText, AddAlias, Said, GoodAlias, AliasList;
      if Trim(arguments) == "" {
        ShowCommands();
        return;
      }
      var text := AliasText(arguments);
      if text.None? {
        Push(Error, "Usage: alias NAME=command");
        return;
      }
      AddCommand(text.value);
    }

    method Cd(arguments: string)
      requires Valid()
      modifies this`transcript, this`cwd, this`lastFailed, this`revision
      ensures Valid() && revision == old(revision) + 1
      ensures match platform.cd(old(cwd), arguments)
              case Moved(path) => cwd == path && !lastFailed && transcript == old(transcript)
              case NoHome =>
                cwd == old(cwd) && lastFailed == old(lastFailed) && Said(old(transcript), transcript, Error)
              case _ => cwd == old(cwd) && lastFailed && Said(old(transcript), transcript, Error)
    {
      hide Prune, Said;
      match platform.cd(cwd, arguments)
      case Moved(path) => ChangeDirectory(path);
      case NoHome => Push(Error, "Home directory is not available.");
      case NotDirectory =>
        lastFailed := true;
        Push(Error, "The requested path is not a directory.");
      case CdFailed(message) =>
        lastFailed := true;
        Push(Error, "Could not change directory: " + message);
    }

    method ClearTranscript()
      requires Valid()
      modifies this`transcript, this`revision
      ensures Valid() && transcript == [] && revision == old(revision) + 1
    {
      transcript := [];
      Touch();
    }

    twostate predicate SameTables()
      reads this
    {
      && transcript == old(transcript) && commands == old(commands) && environment == old(environment)
      && pending == old(pending) && cwd == old(cwd) && revision == old(revision)
    }

    /** Runs a line the shell handles itself; tells whether it was one. */
    method RunBuiltin(line: string) returns (handled: bool)
      requires Valid()
      modifies this`transcript, this`commands, this`environment, this`pending, this`cwd, this`lastFailed, this`revision
      ensures Valid() && revision >= old(revision) && |pending| <= |old(pending)|
      ensures Touched()
      ensures var (name, arguments) := SplitCommand(line);
              match Classify(name)
              case None => !handled && State() == old(State()) && SameTables()
              case Some(builtin) => handled && Done(builtin, arguments, old(State()))
    {
      hide Classify, SplitCommand, AliasesAfter, VariablesAfter, CancelTarget, Told, FailedAfter;
      var (name, arguments) := SplitCommand(line);
      var builtin := Classify(name);
      handled := builtin.Some?;
      if !handled {
        return;
      }
      CancelShrinks(pending, arguments);
      match builtin.value
      case Cancel => CancelLine(arguments);
      case MoveTo => MoveLine(arguments);
      case AddOne => ChangeTables(AddOne, arguments);
      case RemoveOne => ChangeTables(RemoveOne, arguments);
      case SetVariable => ChangeTables(SetVariable, arguments);
      case UnsetOne => ChangeTables(UnsetOne, arguments);
      case Alias => ChangeTables(Alias, arguments);
      case _ => ShowLines(builtin.value, arguments);
    }

    /** A word the shell handles did what it does: tables, queue, directory, failure flag and
        transcript. */
    ghost predicate Done(builtin: Builtin, arguments: string, before: Persisted)
      reads this
    {
      && commands == AliasesAfter(builtin, before.rest.commands, arguments)
      && environment == VariablesAfter(builtin, before.rest.environment, arguments)
      && pending == (if builtin.Cancel? then CancelTarget(before.rest.pending, arguments) else before.rest.pending)
      && cwd == (if builtin.MoveTo? && platform.cd(before.rest.cwd, arguments).Moved?
                 then platform.cd(before.rest.cwd, arguments).path else before.rest.cwd)
      && lastFailed == FailedAfter(platform, builtin, arguments, before.rest)
      && Told(platform, builtin, arguments, before, transcript)
    }

    /** The words that only show something, or clear what is shown. */
    method ShowLines(builtin: Builtin, arguments: string)
      requires Valid() && builtin in {Leave, Erase, Help, ListAliases, ListQueue, ListHistory}
      modifies this`transcript, this`revision
      ensures Valid() && Touched() && revision >= old(revision) && Done(builtin, arguments, old(State()))
    {
      hide Prune, Lines, Numbered, AliasList, QueueList;
      match builtin
      case Leave =>
      case Erase => ClearTranscript();
      case Help => PushAll(Lines(System, platform.help));
      case ListAliases => ShowCommands();
      case ListQueue => ShowQueue();
      case ListHistory => PushAll(Lines(Stdout, Numbered(history)));
    }

    method CancelLine(arguments: string)
      requires Valid()
      modifies this`transcript, this`pending, this`revision
      ensures Valid() && Touched() && revision >= old(revision) && Done(Builtin.Cancel, arguments, old(State()))
    {
      hide Prune, Said, CancelsSomething, CancelTarget;
      CancelQueued(arguments);
    }

    method MoveLine(arguments: string)
      requires Valid()
      modifies this`transcript, this`cwd, this`lastFailed, this`revision
      ensures Valid() && Touched() && revision >= old(revision) && Done(MoveTo, arguments, old(State()))
    {
      hide Prune, Said;
      Cd(arguments);
    }

    /** The words that edit the alias table or the environment. */
    method ChangeTables(builtin: Builtin, arguments: string)
      requires Valid()
      requires builtin in {AddOne, RemoveOne, SetVariable, UnsetOne, Alias}
      modifies this`transcript, this`commands, this`environment, this`revision
      ensures Valid() && Touched() && revision >= old(revision) && Done(builtin, arguments, old(State()))
    {
      hide AddAlias, RemoveAlias, AliasText, Export, Unset, Trim, Said, GoodAlias, GoodExport, IsVariableName, Prune,
           AliasList;
      match builtin
      case AddOne => AddCommand(arguments);
      case RemoveOne => RemoveCommand(arguments);
      case SetVariable => ExportVariable(arguments);
      case UnsetOne => UnsetVariable(arguments);
      case Alias => AliasCommand(arguments);
    }

    // ----- the child -----

    method Interrupt(failure: Option<string>)
      requires Valid()
      modifies this`transcript, this`revision
      ensures Valid() && Touched() && revision >= old(revision)
      ensures running.None? ==> transcript == old(transcript) && revision == old(revision)
      ensures running.Some? ==> Said(old(transcript), transcript, if failure.None? then System else Error)
    {
      hide Prune, Said;
      if running.Some? {
        if failure.None? {
          Push(System, "Interrupt requested.");
        } else {
          Push(Error, "Could not interrupt command: " + failure.value);
        }
      }
    }

    /** The child of the started command is there; its line leaves the queue. */
    method CommandLaunched()
      requires Valid()
      modifies this`pending, this`running, this`reconnectScheduled, this`lastFailed
      ensures Valid() && running == Some(Running(lastWorkerSequence, false, None)) && !lastFailed && !reconnectScheduled
      ensures pending == Unqueued(old(pending), startedCommand) && transcript == old(transcript)
      ensures pending == if old(pending) != [] && startedCommand == Some(old(pending)[0]) then old(pending)[1..]
                         else old(pending)
      ensures Shown() == old(Shown()) ==> State() == old(State())
    {
      if pending != [] && startedCommand == Some(pending[0]) {
        pending := pending[1..];
      }
      running := Some(Running(lastWorkerSequence, false, None));
      reconnectScheduled := false;
      lastFailed := false;
    }

    method CommandLaunchFailed(message: string)
      requires Valid()
      modifies this`pending, this`startedCommand, this`startedId, this`workerRecoverable, this`reconnectScheduled,
               this`lastFailed, this`transcript, this`revision
      ensures Valid() && Touched() && startedCommand.None? && !workerRecoverable && lastFailed
      ensures transcript == Prune(old(transcript) + [Entry(Error, CouldNotStart(message))])
      ensures pending == Unqueued(old(pending), old(startedCommand))
      ensures revision == old(revision) + 1
    {
      if pending != [] && startedCommand == Some(pending[0]) {
        pending := pending[1..];
      }
      startedCommand, startedId := None, None;
      workerRecoverable, reconnectScheduled, lastFailed := false, false, true;
      Push(Error, CouldNotStart(message));
    }

    method CommandOutcomeUnknown()
      requires Valid()
      modifies this`pending, this`startedCommand, this`startedId, this`workerRecoverable, this`reconnectScheduled,
               this`lastFailed, this`transcript, this`revision
      ensures Valid() && Touched() && startedCommand.None? && !workerRecoverable && lastFailed
      ensures transcript == Prune(old(transcript) + [Entry(Error, OutcomeUnknownText())])
      ensures pending == if old(startedCommand).Some? && old(pending) != [] then old(pending)[1..] else old(pending)
      ensures revision == old(revision) + 1
    {
      if startedCommand.Some? && pending != [] {
        pending := pending[1..];
      }
      startedCommand, startedId := None, None;
      workerRecoverable, reconnectScheduled, lastFailed := false, false, true;
      Push(Error, OutcomeUnknownText());
    }

    /** Shows the lines that arrived, skipping those shown before, and settles a child that
        has ended. `exit` is its status when it has been learned by now. */
    method PollCommand(lines: seq<OutputLine>, disconnected: bool, exit: Option<Completion>)
      requires Valid()
      modifies this`running, this`lastWorkerSequence, this`startedCommand, this`startedId, this`workerRecoverable,
               this`reconnectScheduled, this`lastFailed, this`transcript, this`revision
      ensures Valid() && Touched() && revision >= old(revision)
      ensures old(running).None? ==>
                && State() == old(State()) && running.None? && revision == old(revision)
                && reconnectScheduled == old(reconnectScheduled)
      ensures old(running).Some? ==>
                var shown := Prune(old(transcript) + Visible(lines, old(lastWorkerSequence)));
                var completion := if old(running).value.completion.Some? then old(running).value.completion else exit;
                && lastWorkerSequence == Newest(lines, old(lastWorkerSequence))
                && if (old(running).value.disconnected || disconnected) && completion.Some?
                   then
                     && running.None? && startedCommand.None? && !workerRecoverable
                     && lastFailed == !completion.value.success
                     && transcript == (if lastFailed then Prune(shown + [Entry(Error, completion.value.message)])
                                       else shown)
                   else
                     && running.Some? && transcript == shown && lastFailed == old(lastFailed)
                     && startedCommand == old(startedCommand) && startedId == old(startedId)
                     && workerRecoverable == old(workerRecoverable)
    {
      hide Prune;
      if running.None? {
        return;
      }
      var child := running.value;
      child := child.(disconnected := child.disconnected || disconnected);
      if child.completion.None? {
        child := child.(completion := exit);
      }
      var visible, newest := Sift(lines, child.workerSequence);
      SomethingShown(lines, child.workerSequence);
      child := child.(workerSequence := newest);
      lastWorkerSequence, running := newest, Some(child);
      PushAll(visible);
      if child.disconnected && child.completion.Some? {
        SettleChild(child.completion.value);
      }
    }

    /** Walks the lines in order, dropping those at or below the newest sequence shown. */
    static method Sift(lines: seq<OutputLine>, from: nat) returns (visible: seq<Entry>, newest: nat)
      ensures visible == Visible(lines, from) && newest == Newest(lines, from)
    {
      hide Visible, Newest;
      visible, newest := [], from;
      assert lines[..0] == [];
      NoLines(from);
      for i := 0 to |lines|
        invariant visible == Visible(lines[..i], from) && newest == Newest(lines[..i], from)
      {
        var line := lines[i];
        assert lines[..i + 1] == lines[..i] + [line];
        RepeatsAreHidden(lines[..i], [line], from);
        OneLine(line, newest);
        if line.sequence.Some? {
          if line.sequence.value <= newest {
            continue;
          }
          newest := line.sequence.value;
        }
        visible := visible + [Entry(if line.stream.ToStdout? then Stdout else Stderr, line.text)];
      }
      assert lines[..|lines|] == lines;
    }

    method SettleChild(completion: Completion)
      requires Valid()
      modifies this`running, this`startedCommand, this`startedId, this`workerRecoverable, this`reconnectScheduled,
               this`lastFailed, this`transcript, this`revision
      ensures Valid() && running.None? && startedCommand.None? && !workerRecoverable && revision > old(revision)
      ensures lastFailed == !completion.success
      ensures transcript == if lastFailed then Prune(old(transcript) + [Entry(Error, completion.message)])
                            else old(transcript)
    {
      running := None;
      startedCommand, startedId := None, None;
      workerRecoverable, reconnectScheduled := false, false;
      Touch();
      lastFailed := !completion.success;
      if !completion.success {
        Push(Error, completion.message);
      }
    }

    // ----- starting the next command -----

    function ExpandCommand(line: string): string
      reads this
    {
      Expand(commands, line)
    }

    function WithEnvironment(command: string): string
      reads this
    {
      Exporting(platform, environment, command)
    }

    method AllocateCommandId() returns (id: nat)
      requires nextId >= 1
      modifies this`nextId
      ensures id == old(nextId) && nextId == id + 1
    {
      id := Max(nextId, 1);
      nextId := id + 1;
    }

    /** Runs the queued built-in lines up to the next external command, which it starts; or
        rejoins a command a worker may still be running. */
    method StartNextExternal() returns (launch: Option<Launch>)
      requires Valid()
      modifies this
      ensures Valid() && Touched() && revision >= old(revision) && nextId >= old(nextId) && running == old(running)
      ensures history == old(history)
      ensures || old(running).Some?
              || (old(startedCommand).Some? && (!old(workerRecoverable) || old(reconnectScheduled)))
              ==>
                launch.None? && State() == old(State()) && reconnectScheduled == old(reconnectScheduled)
      ensures old(running).None? && old(startedCommand).Some? && old(workerRecoverable) && !old(reconnectScheduled) ==>
                && State() == old(State()) && reconnectScheduled
                && launch == Some(Launch(old(startedId).value, WithEnvironment(ExpandCommand(startedCommand.value)),
                                         cwd, true))
      ensures old(running).None? && old(startedCommand).None? ==>
                if launch.None?
                then startedCommand.None? && pending == [] && (workerRecoverable ==> old(workerRecoverable))
                else
                  && pending != [] && startedCommand == Some(pending[0]) && startedId == Some(launch.value.commandId)
                  && old(nextId) <= launch.value.commandId && nextId == launch.value.commandId + 1
                  && lastWorkerSequence == 0 && !workerRecoverable
                  && Classify(SplitCommand(pending[0]).0).None?
                  && launch == Some(Launch(startedId.value, WithEnvironment(ExpandCommand(pending[0])), cwd, false))
      ensures old(running).None? && old(startedCommand).None? ==>
                && (old(pending) == [] ==> launch.None? && State() == old(State()))
                && (FrontIsExternal(old(pending)) ==>
                      launch.Some? && pending == old(pending) && transcript == old(transcript)
                      && SameSettings())
    {
      if running.None? && workerRecoverable && !reconnectScheduled && startedId.Some? && startedCommand.Some? {
        reconnectScheduled := true;
        return Some(Launch(startedId.value, WithEnvironment(ExpandCommand(startedCommand.value)), cwd, true));
      }
      if running.None? && startedCommand.None? {
        launch := DrainQueue();
        return;
      }
      launch := None;
    }

    /** Aliases, environment and directory are as they were. */
    twostate predicate SameSettings()
      reads this
    {
      commands == old(commands) && environment == old(environment) && cwd == old(cwd)
    }

    predicate Idle()
      reads this
    {
      running.None? && startedCommand.None? && pending == []
    }

    /** A child runs, or one is being started or joined, or there is no line left. */
    predicate NothingToStart()
      reads this
    {
      || running.Some? || (startedCommand.None? && pending == [])
      || (startedCommand.Some? && (reconnectScheduled || !workerRecoverable))
    }

    /** A command was started in an earlier life and a worker may still be running it. */
    predicate MustRejoin()
      reads this
    {
      running.None? && startedCommand.Some? && workerRecoverable && !reconnectScheduled
    }

    /** Nothing that could be started is left, and a command that may still run is rejoined. */
    twostate predicate KeepsGoing(effects: seq<EffectRequest>)
      reads this
    {
      && (effects == [] ==> NothingToStart())
      && (old(MustRejoin()) ==>
            |effects| == 1 && startedId == old(startedId) && startedCommand == old(startedCommand))
    }

    /** The next line is one the shell does not handle itself. */
    static predicate FrontIsExternal(lines: seq<string>) {
      lines != [] && Classify(SplitCommand(lines[0]).0).None?
    }

    /** Takes lines off the queue while the shell can handle them itself. */
    method DrainQueue() returns (launch: Option<Launch>)
      requires Valid() && running.None? && startedCommand.None?
      modifies this
      ensures Valid() && Touched() && revision >= old(revision) && nextId >= old(nextId) && running.None?
      ensures history == old(history)
      ensures if launch.None?
              then startedCommand.None? && pending == [] && (workerRecoverable ==> old(workerRecoverable))
              else
                && pending != [] && startedCommand == Some(pending[0]) && startedId == Some(launch.value.commandId)
                && old(nextId) <= launch.value.commandId && nextId == launch.value.commandId + 1
                && lastWorkerSequence == 0 && !workerRecoverable
                && Classify(SplitCommand(pending[0]).0).None?
                && launch == Some(Launch(startedId.value, WithEnvironment(ExpandCommand(pending[0])), cwd, false))
      ensures old(pending) == [] ==> launch.None? && State() == old(State())
      ensures FrontIsExternal(old(pending)) ==>
                launch.Some? && pending == old(pending) && transcript == old(transcript) && SameSettings()
    {
      hide Classify, SplitCommand, AliasesAfter, VariablesAfter, CancelTarget, Prune, ExpandCommand, WithEnvironment,
           Remember;
      while true
        invariant Valid() && running.None? && startedCommand.None? && nextId >= old(nextId)
        invariant revision >= old(revision) && Touched() && history == old(history)
        invariant workerRecoverable ==> old(workerRecoverable)
        invariant State() == old(State()) || (old(pending) != [] && !FrontIsExternal(old(pending)))
        decreases |pending|
      {
        if pending == [] {
          return None;
        }
        var handled := RunFront();
        if !handled {
          return Some(Launch(startedId.value, WithEnvironment(ExpandCommand(pending[0])), cwd, false));
        }
      }
    }

    /** Starts the line at the front of the queue; one the shell handles itself is over at once. */
    method RunFront() returns (handled: bool)
      requires Valid() && running.None? && startedCommand.None? && pending != []
      modifies this
      ensures Valid() && running.None? && history == old(history)
      ensures revision > old(revision) && nextId == old(nextId) + 1 && lastWorkerSequence == 0 && !workerRecoverable
      ensures handled <==> Classify(SplitCommand(old(pending)[0]).0).Some?
      ensures handled ==> startedCommand.None? && |pending| < |old(pending)|
      ensures !handled ==>
                && pending == old(pending) && startedCommand == Some(pending[0]) && startedId == Some(old(nextId))
                && transcript == old(transcript) && SameSettings()
    {
      hide Classify, SplitCommand, AliasesAfter, VariablesAfter, CancelTarget, Prune, CommandSurface.State,
           CommandSurface.Touched;
      var line := pending[0];
      var _ := BeginCommand(line);
      handled := RunBuiltin(line);
      if handled {
        if pending != [] {
          pending := pending[1..];
        }
        startedCommand, startedId := None, None;
        Touch();
      }
    }

    method BeginCommand(line: string) returns (id: nat)
      requires Valid() && running.None?
      modifies this`lastWorkerSequence, this`workerRecoverable, this`startedCommand, this`startedId, this`nextId,
               this`revision
      ensures Valid() && id == old(nextId) && nextId == id + 1 && revision == old(revision) + 1
      ensures startedCommand == Some(line) && startedId == Some(id) && lastWorkerSequence == 0 && !workerRecoverable
    {
      lastWorkerSequence, workerRecoverable := 0, false;
      startedCommand := Some(line);
      id := AllocateCommandId();
      startedId := Some(id);
      Touch();
    }

    /** The effects of starting whatever can start. */
    method ResidentEffects() returns (effects: seq<EffectRequest>)
      requires Valid() && Settled()
      modifies this
      ensures Valid() && Settled() && Touched() && revision >= old(revision) && nextId >= old(nextId)
              && running == old(running)
      ensures history == old(history)
      ensures old(running).Some? ==> effects == [] && State() == old(State())
      ensures old(running).None? && old(startedCommand).None? && effects == [] ==> startedCommand.None? && pending == []
      ensures old(running).None? && old(startedCommand).None? ==>
                && (old(pending) == [] ==> effects == [] && State() == old(State()))
                && (FrontIsExternal(old(pending)) ==>
                      |effects| == 1 && pending == old(pending) && transcript == old(transcript)
                      && SameSettings() && startedCommand == Some(pending[0]))
      ensures |effects| <= 1 && forall e :: e in effects ==> Starts(e)
      ensures KeepsGoing(effects)
      ensures forall e :: e in effects && e.effect.WorkerRun? ==>
                e.effect.commandId >= old(nextId) || old(startedId) == Some(e.effect.commandId)
    {
      hide Classify, SplitCommand;
      var launch := StartNextExternal();
      if launch.None? {
        return [];
      }
      if !platform.persistent {
        return [EffectRequest(AtMostOnce, Run(launch.value.command, launch.value.cwd))];
      }
      workerRecoverable := true;
      Touch();
      effects := [EffectRequest(AtLeastOnce, WorkerRun(launch.value.commandId, launch.value.command, launch.value.cwd,
                                                       lastWorkerSequence))];
    }

    /** An effect that starts the started command: a fresh child runs at most once; a worker is
        asked again until it answers, and knows the command by its number. */
    predicate Starts(e: EffectRequest)
      reads this
    {
      && startedCommand.Some? && startedId.Some?
      && var command := WithEnvironment(ExpandCommand(startedCommand.value));
         e == if platform.persistent
              then EffectRequest(AtLeastOnce, WorkerRun(startedId.value, command, cwd, lastWorkerSequence))
              else EffectRequest(AtMostOnce, Run(command, cwd))
    }

    /** Between handlers a command a worker may be running is recorded as recoverable. */
    ghost predicate Settled()
      reads this
    {
      && (workerRecoverable ==> startedCommand.Some?)
      && (platform.persistent && startedCommand.Some? ==> workerRecoverable)
    }

    // ----- handlers -----

    /** At most one event, and it carries both the durable state and the visible state from
        where the handler found them to where it left them. */
    twostate predicate Reported(events: seq<ShellEvent>)
      reads this
    {
      Rebuilds(platform.prompt, old(State()), old(Shown()), events, State(), Shown())
    }

    /** What a handler reports: nothing when nothing visible changed, otherwise the difference. */
    method Report(previous: Snapshot, ghost before: Persisted) returns (events: seq<ShellEvent>)
      requires Valid() && previous == SnapshotOf(platform.prompt, before, previous.running)
      requires Shown() == previous ==> State() == before
      ensures Rebuilds(platform.prompt, before, previous, events, State(), Shown())
    {
      var current := Shown();
      if current == previous {
        return [];
      }
      ReplayRebuilds(platform.prompt, before, previous.running, State(), current.running);
      BoardRebuilds(platform.prompt, before, previous.running, State(), current.running);
      ApplyRebuilds(previous, current, RecoveryState());
      events := [Between(previous, current, RecoveryState())];
    }

    /** What a command that starts nothing does to the surface. */
    ghost predicate PlainlyDone(before: Persisted, child: Option<Running>, command: ShellCommand)
      reads this
    {
      && running == child && State().rest == CommandRest(before.rest, command).(revision := revision)
      && match command
         case Clear => transcript == []
         case QueueStatus =>
           transcript == Prune(before.transcript + QueueList(pending))
         case CancelQueued(target) =>
           Said(before.transcript, transcript, if CancelsSomething(before.rest.pending, target) then System else Error)
         case Interrupt(failure) =>
           if running.None? then transcript == before.transcript
           else Said(before.transcript, transcript, if failure.None? then System else Error)
         case _ => transcript == before.transcript
    }

    method ApplyPlain(command: ShellCommand)
      requires Valid() && Settled() && !command.Submit? && !(command.SetWorkingDirectory? && command.path.None?)
      modifies this`transcript, this`pending, this`cwd, this`lastFailed, this`revision
      ensures Valid() && Settled() && Touched() && PlainlyDone(old(State()), old(running), command)
    {
      hide Prune, Said, CancelsSomething, CancelTarget, Lines, Numbered;
      match command {
        case SetWorkingDirectory(path) => ChangeDirectory(path.value);
        case Interrupt(failure) => Interrupt(failure);
        case Clear => ClearTranscript();
        case QueueStatus => ShowQueue();
        case CancelQueued(target) => CancelQueued(target);
        case _ =>
      }
    }

    /** Takes a line, and starts what can start. */
    method SubmitLine(line: string) returns (effects: seq<EffectRequest>)
      requires Valid() && Settled()
      modifies this
      ensures Valid() && Settled() && Touched() && nextId >= old(nextId) && running == old(running)
      ensures history == if line == "" then old(history) else Remember(old(history), line)
      ensures line != "" && running.Some? ==>
                && effects == [] && pending == old(pending) + [line]
                && transcript == Prune(old(transcript) + [Entry(Kind.Command, "$ " + line)])
      ensures old(running).None? && old(startedCommand).None? && effects == [] ==> pending == []
      ensures KeepsGoing(effects)
      ensures forall e :: e in effects ==> Starts(e)
      ensures line != "" && old(Idle()) && FrontIsExternal([line]) ==>
                |effects| == 1 && startedCommand == Some(line) && SameSettings()
      ensures forall e :: e in effects && e.effect.WorkerRun? ==>
                e.effect.commandId >= old(nextId) || old(startedId) == Some(e.effect.commandId)
    {
      hide Prune, Remember, FrontIsExternal, CommandSurface.Starts;
      AcceptLine(line);
      assert old(Idle()) && line != "" ==> pending == [line];
      effects := ResidentEffects();
    }

    method HandleCommand(command: ShellCommand) returns (events: seq<ShellEvent>, effects: seq<EffectRequest>, ok: bool)
      requires Valid() && Settled()
      modifies this
      ensures Valid() && Settled() && Reported(events) && nextId >= old(nextId)
      ensures !ok ==> events == [] && effects == [] && State() == old(State()) && Shown() == old(Shown())
      ensures ok <==> !(command.SetWorkingDirectory? && command.path.None?)
      ensures ok && !command.Submit? ==>
                && effects == (if command.Prepare? && running.None? && startedCommand.None?
                               then [EffectRequest(AtLeastOnce, PrepareWorker)] else [])
                && PlainlyDone(old(State()), old(running), command)
      ensures command.Submit? ==>
                history == if command.line == "" then old(history) else Remember(old(history), command.line)
      ensures command.Submit? && command.line != "" && running.Some? ==>
                && effects == [] && pending == old(pending) + [command.line]
                && transcript == Prune(old(transcript) + [Entry(Kind.Command, "$ " + command.line)])
      ensures command.Submit? && old(running).None? && old(startedCommand).None? && effects == [] ==> pending == []
      ensures command.Submit? ==> forall e :: e in effects ==> Starts(e)
      ensures command.Submit? ==> KeepsGoing(effects)
      ensures command.Submit? && command.line != "" && old(Idle()) && FrontIsExternal([command.line]) ==>
                |effects| == 1 && startedCommand == Some(command.line) && SameSettings()
      ensures forall e :: e in effects && e.effect.WorkerRun? ==>
                e.effect.commandId >= old(nextId) || old(startedId) == Some(e.effect.commandId)
    {
      hide Prune, Remember, Rebuilds, ExpandCommand, WithEnvironment, CommandSurface.PlainlyDone, FrontIsExternal;
      ghost var before := State();
      var previous := Shown();
      effects := [];
      ok := !(command.SetWorkingDirectory? && command.path.None?);
      if command.Submit? {
        effects := SubmitLine(command.line);
      } else if ok {
        if command.Prepare? && running.None? && startedCommand.None? {
          effects := [EffectRequest(AtLeastOnce, PrepareWorker)];
        }
        ApplyPlain(command);
      }
      events := Report(previous, before);
      if !ok {
        NothingReported(platform.prompt, before, previous);
        events := [];
      }
    }

    method Poll(lines: seq<OutputLine>, disconnected: bool, exit: Option<Completion>)
      returns (events: seq<ShellEvent>, effects: seq<EffectRequest>)
      requires Valid() && Settled()
      modifies this
      ensures Valid() && Settled() && Reported(events) && nextId >= old(nextId)
      ensures running.Some? ==>
                && old(running).Some? && effects == []
                && transcript == Prune(old(transcript) + Visible(lines, old(lastWorkerSequence)))
                && lastWorkerSequence == Newest(lines, old(lastWorkerSequence))
      ensures old(running).Some? && (old(running).value.disconnected || disconnected)
              && (old(running).value.completion.Some? || exit.Some?)
              ==> running.None?
      ensures forall e :: e in effects ==> Starts(e)
      ensures KeepsGoing(effects)
      ensures forall e :: e in effects && e.effect.WorkerRun? ==>
                e.effect.commandId >= old(nextId) || old(startedId) == Some(e.effect.commandId)
    {
      hide Prune, Rebuilds, ExpandCommand, WithEnvironment, Visible, Newest;
      ghost var before := State();
      var previous := Shown();
      PollCommand(lines, disconnected, exit);
      effects := ResidentEffects();
      events := Report(previous, before);
    }

    /** What an outcome leaves behind: a started child, or the line off the queue and, unless the
        shell handles the next line itself, that line started. */
    ghost predicate Settles(before: Persisted, busy: bool, outcome: EffectOutcome, effects: seq<EffectRequest>)
      reads this
    {
      var rest := Unqueued(before.rest.pending, before.rest.command);
      match outcome
      case Launched => effects == [] && ChildRuns(before, rest)
      case Prepared => busy ==> effects == [] && State() == before
      case PrepareFailed => busy ==> effects == [] && State() == before
      case _ => FailureSettled(pending, rest, |effects|, busy) || (!busy && rest != [] && !FrontIsExternal(rest))
    }

    ghost predicate ChildRuns(before: Persisted, rest: seq<string>)
      reads this
    {
      && running == Some(Running(lastWorkerSequence, false, None))
      && startedCommand == before.rest.command && pending == rest && transcript == before.transcript
    }

    static ghost predicate FailureSettled(lines: seq<string>, rest: seq<string>, started: nat, busy: bool) {
      lines == rest && started == if busy || rest == [] then 0 else 1
    }

    method EffectCompleted(outcome: EffectOutcome) returns (events: seq<ShellEvent>, effects: seq<EffectRequest>)
      requires Valid() && Settled()
      modifies this
      ensures Valid() && Settled() && Reported(events) && nextId >= old(nextId)
      ensures Settles(old(State()), old(running).Some?, outcome, effects)
      ensures var rest := Unqueued(old(pending), old(startedCommand));
              && (outcome.OutcomeUnknown? || outcome.LaunchFailed?)
              && (old(running).Some? || rest == [] || FrontIsExternal(rest))
              ==> transcript == Prune(old(transcript) + [Entry(Error, FailureText(outcome, old(startedCommand)))])
      ensures (forall e :: e in effects ==> Starts(e)) && (effects == [] ==> NothingToStart())
      ensures forall e :: e in effects && e.effect.WorkerRun? ==>
                e.effect.commandId >= old(nextId) || old(startedId) == Some(e.effect.commandId)
    {
      hide Prune, Rebuilds, ExpandCommand, WithEnvironment, Unqueued, FrontIsExternal, FailureText;
      ghost var before := State();
      var previous := Shown();
      Absorb(outcome);
      effects := ResidentEffects();
      events := Report(previous, before);
    }

    /** What the outcome of an effect does, before anything new is started. */
    method Absorb(outcome: EffectOutcome)
      requires Valid() && Settled()
      modifies this
      ensures Valid() && Settled() && nextId == old(nextId)
      ensures startedId.Some? ==> startedId == old(startedId)
      ensures Touched() || (running.Some? && (Shown() == old(Shown()) ==> State() == old(State())))
      ensures revision >= old(revision)
      ensures match outcome
              case Launched =>
                && running == Some(Running(lastWorkerSequence, false, None)) && startedCommand == old(startedCommand)
                && pending == Unqueued(old(pending), startedCommand) && transcript == old(transcript) && !lastFailed
              case Prepared => State() == old(State()) && running == old(running)
              case PrepareFailed => State() == old(State()) && running == old(running)
              case _ =>
                && startedCommand.None? && lastFailed && running == old(running)
                && pending == Unqueued(old(pending), old(startedCommand))
                && transcript == Prune(old(transcript) + [Entry(Error, FailureText(outcome, old(startedCommand)))])
    {
      hide Prune, Unqueued, FailureText, CommandSurface.Shown, CommandSurface.State;
      match outcome {
        case Prepared =>
        case Launched => CommandLaunched();
        case PrepareFailed =>
        case _ => NotLaunched(outcome);
      }
    }

    /** The command of an effect did not start, or nobody knows whether it did. */
    method NotLaunched(outcome: EffectOutcome)
      requires Valid() && Settled() && (outcome.OutcomeUnknown? || outcome.LaunchFailed?)
      modifies this`pending, this`startedCommand, this`startedId, this`workerRecoverable, this`reconnectScheduled,
               this`lastFailed, this`transcript, this`revision
      ensures Valid() && Settled() && Touched() && revision >= old(revision)
      ensures startedCommand.None? && lastFailed && pending == Unqueued(old(pending), old(startedCommand))
      ensures transcript == Prune(old(transcript) + [Entry(Error, FailureText(outcome, old(startedCommand)))])
    {
      hide Prune, CommandSurface.State;
      if outcome.LaunchFailed? {
        CommandLaunchFailed(outcome.message);
      } else if startedCommand.None? {
        CommandOutcomeUnknown();
      } else {
        CommandLaunchFailed(UnknownOutcomeError());
      }
    }

    // ----- starting and restoring -----

    constructor (platform: Platform, cwd: string, banner: seq<string>)
      ensures Valid() && Settled() && this.platform == platform && this.cwd == cwd
      ensures transcript == Prune(Lines(System, banner)) && pending == [] && running.None? && nextId == 1
    {
      this.platform := platform;
      transcript, history, commands, environment, pending := [], [], map[], map[], [];
      startedCommand, startedId, nextId := None, None, 1;
      this.cwd := cwd;
      running, reconnectScheduled, lastWorkerSequence, workerRecoverable, lastFailed := None, false, 0, false, false;
      revision := 0;
      new;
      PushAll(Lines(System, banner));
      assert [] + Lines(System, banner) == Lines(System, banner);
    }

    /** Rebuilds a surface from durable state. A child that no worker holds is lost: its line
        is dropped and the loss is reported. */
    constructor Restore(platform: Platform, p: Persisted)
      requires |p.transcript| <= MAX_TRANSCRIPT && |p.rest.history| <= MAX_HISTORY && p.rest.nextId >= 1
      requires p.rest.command.Some? <==> p.rest.commandId.Some?
      requires p.rest.commandId.Some? ==> p.rest.commandId.value < p.rest.nextId
      ensures Valid() && this.platform == platform && running.None?
      ensures State() == p <==> (p.rest.command.Some? <==> p.rest.recoverable)
      ensures p.rest.command.Some? && !p.rest.recoverable ==>
                && startedCommand.None? && lastFailed && revision == p.rest.revision + 1
                && pending == (if p.rest.pending != [] && p.rest.pending[0] == p.rest.command.value
                               then p.rest.pending[1..] else p.rest.pending)
                && transcript == Prune(p.transcript + [Entry(Error, Interrupted(p.rest.command.value))])
      ensures && history == p.rest.history && commands == p.rest.commands && environment == p.rest.environment
              && cwd == p.rest.cwd && nextId == p.rest.nextId && lastWorkerSequence == p.rest.workerSequence
              && !reconnectScheduled
      ensures Settled()
    {
      hide Prune;
      var recoverable := p.rest.recoverable && p.rest.commandId.Some?;
      var lost := !recoverable && p.rest.command.Some?;
      this.platform := platform;
      transcript, history, commands, environment := p.transcript, p.rest.history, p.rest.commands, p.rest.environment;
      pending := if lost && p.rest.pending != [] && p.rest.command == Some(p.rest.pending[0])
                 then p.rest.pending[1..] else p.rest.pending;
      startedCommand := if recoverable then p.rest.command else None;
      startedId := if recoverable then p.rest.commandId else None;
      nextId, cwd, running, reconnectScheduled := p.rest.nextId, p.rest.cwd, None, false;
      lastWorkerSequence, workerRecoverable := p.rest.workerSequence, recoverable;
      lastFailed := if lost then true else p.rest.failed;
      revision := p.rest.revision;
      new;
      if lost {
        Push(Error, Interrupted(p.rest.command.value));
      }
    }
  }

  function CommandOf(effect: ShellEffect): string {
    match effect
    case Run(command, _) => command
    case WorkerRun(_, command, _, _) => command
    case PrepareWorker => ""
  }

  /** What an idle shell runs for a submitted line that is not its own: the alias text and the
      arguments, or the line itself, behind the exports when there are any. */
  method SubmitRuns(surface: CommandSurface, word: string, arguments: string) returns (effect: ShellEffect)
    requires surface.Valid() && surface.Settled() && surface.Idle()
    requires IsWord(word) && Trimmed(arguments) && Classify(word).None?
    modifies surface
    ensures CommandOf(effect)
            == (if old(surface.environment) == map[] then ""
                else surface.platform.exports(old(surface.environment)) + "; ")
               + if word in old(surface.commands) then Typed(old(surface.commands)[word], arguments)
                 else Typed(word, arguments)
    ensures if surface.platform.persistent then effect.WorkerRun? && effect.cwd == old(surface.cwd)
            else effect.Run? && effect.cwd == old(surface.cwd)
  {
    hide SplitCommand, Expand, Classify;
    SplitPlain(word, arguments);
    ExpandPlain(surface.commands, word, arguments);
    var events, effects, ok := surface.HandleCommand(Submit(Typed(word, arguments)));
    assert surface.Starts(effects[0]);
    effect := effects[0].effect;
  }

  /** What the commands that start nothing do to the durable state beside the transcript. */
  function CommandRest(rest: Recovery, command: ShellCommand): Recovery {
    match command
    case SetWorkingDirectory(path) => if path.None? then rest else rest.(cwd := path.value, failed := false)
    case CancelQueued(target) => rest.(pending := CancelTarget(rest.pending, target))
    case _ => rest
  }

  function UnknownOutcomeError(): string {
    "leader stopped after an at-most-once effect may have started"
  }

  ghost predicate Rebuilds(
    prompt: string -> string, before: Persisted, shown: Snapshot, events: seq<ShellEvent>, after: Persisted,
    now: Snapshot)
  {
    if events == [] then after == before && now == shown
    else
      && |events| == 1
      && Replay(before, events[0]) == after
      && Apply(shown, events[0]) == now
      && BoardApply(BoardOf(prompt, before), events[0]) == BoardOf(prompt, after)
  }

  lemma NothingReported(prompt: string -> string, state: Persisted, shown: Snapshot)
    ensures Rebuilds(prompt, state, shown, [], state, shown)
  {
  }

  lemma CancelShrinks(pending: seq<string>, arguments: string)
    ensures |CancelTarget(pending, arguments)| <= |pending|
  {
  }
}
