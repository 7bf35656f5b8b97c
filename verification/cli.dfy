/**
 * The command-line entry point: the classification of the first program
 * argument, and the read-evaluate loop that hands every non-blank line to
 * the command dispatcher until "exit", "quit", an interrupt or the end of
 * input.
 *
 * The startup probes (is git installed, is the working directory inside a
 * work tree, is the local model server answering) are inputs; so is every
 * line the user types, together with what the outside world answers while
 * that line's command runs.
 */
module Cli {
  import opened Wrappers
  import opened Text
  import Config
  import Commands
  import Providers

  const HelpMsg: string :=
    "\nCommit writing wizard\n\nUsage:\n"
    + "  commizard [-v | --version] [-h | --help] [--no-color] [--no-banner]\n\nOptions:\n"
    + "  -h, --help       Show help for commizard\n"
    + "  -v, --version    Show version information\n"
    + "  --no-color       Don't colorize output\n"
    + "  --no-banner      Disable the ASCII welcome banner\n"
    + "  --stream         Stream generated prompt to stdout\n"

  /** The seven options the program knows. */
  const SupportedArgs: set<string> := {"-v", "--version", "-h", "--help", "--no-banner", "--no-color", "--stream"}

  const UnknownOptionHint: string := "try 'commizard -h' for more information."

  /** The configuration flag an option switches. */
  datatype Flag = NoBanner | NoColor | Stream

  /** What `handle_args` decides: carry on (having switched at most one flag), or exit with a code after printing some lines. */
  datatype ArgAction = Continue(flag: Option<Flag>) | Quit(code: int, lines: seq<string>)

  /** The decision `handle_args` takes on the argument vector; only `argv[1]` is looked at. */
  function Classify(argv: seq<string>, version: string): (r: ArgAction)
    ensures |argv| < 2 ==> r == Continue(None)
    ensures r.Quit? ==> r.code == 0 || r.code == 2
    ensures r.Quit? && r.code == 2 <==> |argv| >= 2 && argv[1] !in SupportedArgs
    ensures r.Quit? && r.code == 2 ==> r.lines == ["Unknown option: " + argv[1], UnknownOptionHint]
    ensures r.Quit? && r.code == 0 <==> |argv| >= 2 && argv[1] in {"-v", "--version", "-h", "--help"}
    ensures r.Continue? && r.flag.Some? <==> |argv| >= 2 && argv[1] in {"--no-banner", "--no-color", "--stream"}
    ensures |argv| >= 2 && argv[1] == "--no-banner" ==> r == Continue(Some(NoBanner))
    ensures |argv| >= 2 && argv[1] == "--no-color" ==> r == Continue(Some(NoColor))
    ensures |argv| >= 2 && argv[1] == "--stream" ==> r == Continue(Some(Stream))
    ensures |argv| >= 2 && argv[1] in {"-v", "--version"} ==> r == Quit(0, ["CommiZard " + version])
    ensures |argv| >= 2 && argv[1] in {"-h", "--help"} ==> r == Quit(0, [Strip(HelpMsg)])
  {
    if |argv| < 2 then Continue(None)
    else
      var arg := argv[1];
      if arg !in SupportedArgs then Quit(2, ["Unknown option: " + arg, UnknownOptionHint])
      else if arg == "-v" || arg == "--version" then Quit(0, ["CommiZard " + version])
      else if arg == "-h" || arg == "--help" then Quit(0, [Strip(HelpMsg)])
      else if arg == "--no-banner" then Continue(Some(NoBanner))
      else if arg == "--no-color" then Continue(Some(NoColor))
      else Continue(Some(Stream))
  }

  /** Arguments after the first never change the decision. */
  lemma OnlyFirstArgumentCounts(argv: seq<string>, extra: seq<string>, version: string)
    requires |argv| >= 2
    ensures Classify(argv + extra, version) == Classify(argv, version)
  {
    assert (argv + extra)[1] == argv[1];
  }

  /** `handle_args()`: applies the decision to the configuration and returns the exit code, if any, and the printed lines. */
  method HandleArgs(argv: seq<string>, version: string, settings: Config.Settings) returns (exit: Option<int>, printed: seq<string>)
    modifies settings
    ensures Classify(argv, version).Quit? ==>
      exit == Some(Classify(argv, version).code) && printed == Classify(argv, version).lines
    ensures Classify(argv, version).Continue? ==> exit == None && printed == []
    ensures settings.llmUrl == old(settings.llmUrl)
    ensures settings.showBanner == (old(settings.showBanner) && Classify(argv, version) != Continue(Some(NoBanner)))
    ensures settings.useColor == (old(settings.useColor) && Classify(argv, version) != Continue(Some(NoColor)))
    ensures settings.stream == (old(settings.stream) || Classify(argv, version) == Continue(Some(Stream)))
  {
    exit, printed := None, [];
    if |argv| < 2 {
      return;
    }
    if argv[1] !in SupportedArgs {
      return Some(2), ["Unknown option: " + argv[1], UnknownOptionHint];
    }
    if argv[1] == "-v" || argv[1] == "--version" {
      return Some(0), ["CommiZard " + version];
    } else if argv[1] == "-h" || argv[1] == "--help" {
      return Some(0), [Strip(HelpMsg)];
    } else if argv[1] == "--no-banner" {
      settings.showBanner := false;
    } else if argv[1] == "--no-color" {
      settings.useColor := false;
    } else if argv[1] == "--stream" {
      settings.stream := true;
    }
  }

  // ---------------------------------------------------------------- the loop

  /** One read from the prompt: a typed line (with what the world answers to its command), or an interrupt. The end of the sequence is the end of input. */
  datatype Input = Typed(text: string, world: Commands.World) | Interrupt

  /** What the startup checks found. */
  datatype Probes = Probes(gitInstalled: bool, insideWorkTree: bool, aiAvailable: bool)

  /** How `main` ends: it returns a code, `handle_args` exits the process, or a command lets an exception escape. */
  datatype MainOutcome = Returned(code: int) | SystemExit(code: int) | Crashed(error: Commands.PyError)

  /** What `main` shows, in order. */
  datatype Event =
    | Said(text: string)                            // print
    | ErrorShown(text: string)                      // output.print_error
    | WarningShown(text: string)                    // output.print_warning
    | BannerShown(color: bool)                      // start.print_welcome
    | Ran(line: string, effects: seq<Commands.Effect>)  // commands.parser on a line

  predicate IsQuit(line: string) {
    line == "exit" || line == "quit"
  }

  /** How the loop ends. */
  datatype LoopEnd = QuitCommand | Interrupted | EndOfInput

  /** The lines the loop hands to `parser`, in order, and how it ends. */
  datatype Session = Session(calls: seq<string>, end: LoopEnd)

  /** One read of the loop: how `input` shapes the session `rest` of the inputs after it. */
  function Next(input: Input, rest: Session): Session {
    match input
    case Interrupt => Session([], Interrupted)
    case Typed(text, _) =>
      var line := Strip(text);
      if IsQuit(line) then Session([], QuitCommand)
      else if line == "" then rest
      else Session([line] + rest.calls, rest.end)
  }

  /**
   * The session `main` runs on the inputs from position `i` on: the
   * stripped, non-blank lines before the first "exit"/"quit", interrupt or
   * end of input.
   */
  function SessionFrom(inputs: seq<Input>, i: nat): (r: Session)
    requires i <= |inputs|
    ensures |r.calls| <= |inputs| - i
    ensures i == |inputs| ==> r == Session([], EndOfInput)
    decreases |inputs| - i
  {
    if i == |inputs| then Session([], EndOfInput) else Next(inputs[i], SessionFrom(inputs, i + 1))
  }

  /** The session `main` runs on a sequence of inputs. */
  function ReplSession(inputs: seq<Input>): (r: Session)
    ensures |r.calls| <= |inputs|
    ensures inputs == [] ==> r == Session([], EndOfInput)
  {
    SessionFrom(inputs, 0)
  }

  /** The farewell printed when the loop ends: "exit"/"quit" prints it plainly, an interrupt or the end of input after a line break. */
  function Farewell(end: LoopEnd): string {
    if end == QuitCommand then "Goodbye!" else "\nGoodbye!"
  }

  /** Every line handed to `parser` is stripped, non-blank and not a quit word. */
  lemma {:induction false} SessionCallsAreCommands(inputs: seq<Input>, i: nat)
    requires i <= |inputs|
    ensures forall k :: 0 <= k < |SessionFrom(inputs, i).calls| ==>
      SessionFrom(inputs, i).calls[k] != [] && !IsSpace(SessionFrom(inputs, i).calls[k][0])
      && !IsSpace(SessionFrom(inputs, i).calls[k][|SessionFrom(inputs, i).calls[k]| - 1]) && !IsQuit(SessionFrom(inputs, i).calls[k])
    decreases |inputs| - i
  {
    if i < |inputs| && inputs[i].Typed? && !IsQuit(Strip(inputs[i].text)) {
      StripSpec(inputs[i].text);
      SessionCallsAreCommands(inputs, i + 1);
    }
  }

  /** Inputs read after position `|before|` behave as they would on their own. */
  lemma {:induction false} SessionShift(before: seq<Input>, tail: seq<Input>, k: nat)
    requires k <= |tail|
    ensures SessionFrom(before + tail, |before| + k) == SessionFrom(tail, k)
    decreases |tail| - k
  {
    var inputs, j := before + tail, |before| + k;
    if k < |tail| {
      assert inputs[j] == tail[k];
      SessionShift(before, tail, k + 1);
      assert SessionFrom(inputs, j) == Next(tail[k], SessionFrom(inputs, j + 1));
      assert SessionFrom(tail, k) == Next(tail[k], SessionFrom(tail, k + 1));
      assert SessionFrom(inputs, j + 1) == SessionFrom(tail, k + 1);
      assert SessionFrom(inputs, j) == SessionFrom(tail, k);
    } else {
      assert j == |inputs|;
      assert SessionFrom(inputs, j) == Session([], EndOfInput);
      assert SessionFrom(tail, k) == Session([], EndOfInput);
    }
  }

  /** A line reading "exit" or "quit" ends the session. */
  lemma QuitLineEndsSession(text: string, world: Commands.World, after: seq<Input>)
    requires IsQuit(Strip(text))
    ensures ReplSession([Typed(text, world)] + after) == Session([], QuitCommand)
  {
    assert ([Typed(text, world)] + after)[0] == Typed(text, world);
  }

  /** Inputs that make no calls add none after any prefix. */
  lemma {:induction false} AppendSilent(before: seq<Input>, tail: seq<Input>, i: nat)
    requires i <= |before|
    requires ReplSession(tail).calls == []
    ensures SessionFrom(before + tail, i).calls == SessionFrom(before, i).calls
    decreases |before| - i
  {
    if i == |before| {
      SessionShift(before, tail, 0);
    } else {
      assert (before + tail)[i] == before[i];
      AppendSilent(before, tail, i + 1);
    }
  }

  /** Nothing typed after "exit" or "quit" reaches the dispatcher. */
  lemma QuitStopsReading(before: seq<Input>, text: string, world: Commands.World, after: seq<Input>)
    requires IsQuit(Strip(text))
    ensures ReplSession(before + [Typed(text, world)] + after).calls == ReplSession(before).calls
  {
    var tail := [Typed(text, world)] + after;
    assert before + [Typed(text, world)] + after == before + tail;
    QuitLineEndsSession(text, world, after);
    AppendSilent(before, tail, 0);
  }

  /** A blank line is skipped without reaching the dispatcher. */
  lemma BlankLineIsSkipped(text: string, world: Commands.World, rest: seq<Input>)
    requires IsBlank(text)
    ensures ReplSession([Typed(text, world)] + rest) == ReplSession(rest)
  {
    var inputs := [Typed(text, world)] + rest;
    assert inputs[0] == Typed(text, world);
    StripSpec(text);
    assert !IsQuit("");
    SessionShift([Typed(text, world)], rest, 0);
  }

  /**
   * The dispatcher never receives a line without words, so its `commands[0]`
   * cannot fail: `parser` raises on a line of the loop only from inside a
   * command's handler.
   */
  lemma DispatcherAlwaysFindsAWord(inputs: seq<Input>, k: nat, s: Providers.Snapshot, w: Commands.World)
    requires k < |ReplSession(inputs).calls|
    ensures !Commands.Parse(ReplSession(inputs).calls[k]).NoWords?
    ensures Commands.ParserOutcome(ReplSession(inputs).calls[k], s, w).0.None? ==>
      Commands.Parse(ReplSession(inputs).calls[k]).Command?
  {
    SessionCallsAreCommands(inputs, 0);
    var line := ReplSession(inputs).calls[k];
    assert !IsSpace(line[0]);
  }

  /** What `main` shows before the loop: the banner when it is on, then the warning when the server did not answer. */
  function Startup(showBanner: bool, useColor: bool, aiAvailable: bool): (r: seq<Event>)
    ensures BannerShown(useColor) in r <==> showBanner
    ensures WarningShown("local AI not available") in r <==> !aiAvailable
    ensures showBanner ==> r[0] == BannerShown(useColor)
  {
    (if showBanner then [BannerShown(useColor)] else [])
    + (if aiAvailable then [] else [WarningShown("local AI not available")])
  }

  /** `commands.parser(line)` on a line that has a first word: it answers with a status unless the command's handler raises. */
  method RunLine(line: string, reg: Providers.Registers, world: Commands.World) returns (status: Option<int>, effects: seq<Commands.Effect>)
    requires line != [] && !IsSpace(line[0])
    modifies reg
    ensures (status, Commands.Step(reg.Values(), effects)) == Commands.ParserOutcome(line, old(reg.Values()), world)
    ensures status.None? <==> Commands.Crashes(effects)
  {
    status, effects := Commands.Parser(line, reg, world);
  }

  /** The loop's bookkeeping: the calls made so far followed by the session of the unread inputs. */
  predicate SessionSoFar(inputs: seq<Input>, i: nat, calls: seq<string>)
    requires i <= |inputs|
  {
    ReplSession(inputs) == Session(calls + SessionFrom(inputs, i).calls, SessionFrom(inputs, i).end)
  }

  /** An interrupt or an "exit"/"quit" line ends the session with the calls made so far. */
  lemma StopAt(inputs: seq<Input>, i: nat, calls: seq<string>)
    requires i < |inputs| && (inputs[i].Interrupt? || IsQuit(Strip(inputs[i].text)))
    requires SessionSoFar(inputs, i, calls)
    ensures ReplSession(inputs) == Session(calls, if inputs[i].Interrupt? then Interrupted else QuitCommand)
  {
    assert calls + [] == calls;
  }

  /** Reading a typed line other than "exit"/"quit" adds its stripped text to the calls unless it is blank. */
  lemma Advance(inputs: seq<Input>, i: nat, calls: seq<string>)
    requires i < |inputs| && inputs[i].Typed? && !IsQuit(Strip(inputs[i].text))
    requires SessionSoFar(inputs, i, calls)
    ensures SessionSoFar(inputs, i + 1, if Strip(inputs[i].text) == "" then calls else calls + [Strip(inputs[i].text)])
  {
    var later := SessionFrom(inputs, i + 1);
    assert calls + ([Strip(inputs[i].text)] + later.calls) == (calls + [Strip(inputs[i].text)]) + later.calls;
  }

  /** The calls made so far are a prefix of the session's calls. */
  lemma CallsArePrefix(inputs: seq<Input>, i: nat, calls: seq<string>)
    requires i <= |inputs| && SessionSoFar(inputs, i, calls)
    ensures |calls| <= |ReplSession(inputs).calls| && ReplSession(inputs).calls[..|calls|] == calls
  {
    assert (calls + SessionFrom(inputs, i).calls)[..|calls|] == calls;
  }

  /** `events` opens with one `Ran` per call, in order, and none of those commands let an exception escape. */
  predicate RanQuietly(events: seq<Event>, calls: seq<string>) {
    |calls| <= |events| &&
    forall k :: 0 <= k < |calls| ==> events[k].Ran? && events[k].line == calls[k] && !Commands.Crashes(events[k].effects)
  }

  /** A quiet run of one more line keeps the record quiet. */
  lemma RanQuietlyExtend(events: seq<Event>, calls: seq<string>, line: string, effects: seq<Commands.Effect>)
    requires |events| == |calls| && RanQuietly(events, calls) && !Commands.Crashes(effects)
    ensures RanQuietly(events + [Ran(line, effects)], calls + [line])
  {
  }

  /** The exception that ends a run of effects. */
  function Escaped(effects: seq<Commands.Effect>): Commands.PyError
    requires Commands.Crashes(effects)
  {
    effects[|effects| - 1].error
  }

  /**
   * The loop ran to its end: it handed `parser` exactly the session's lines,
   * none of them let an exception escape, and the farewell came last.
   */
  predicate Completed(inputs: seq<Input>, events: seq<Event>, calls: seq<string>) {
    && calls == ReplSession(inputs).calls
    && |events| == |calls| + 1 && RanQuietly(events, calls)
    && events[|events| - 1] == Said(Farewell(ReplSession(inputs).end))
  }

  /**
   * The loop stopped at the command of its last call, which let `error`
   * escape: the calls are a prefix of the session's lines and every earlier
   * call ran quietly.
   */
  predicate CrashedAt(inputs: seq<Input>, error: Commands.PyError, events: seq<Event>, calls: seq<string>) {
    && calls != [] && |calls| <= |ReplSession(inputs).calls| && calls == ReplSession(inputs).calls[..|calls|]
    && |events| == |calls|
    && RanQuietly(events[..|calls| - 1], calls[..|calls| - 1])
    && events[|events| - 1].Ran? && events[|events| - 1].line == calls[|calls| - 1]
    && Commands.Crashes(events[|events| - 1].effects)
    && error == Escaped(events[|events| - 1].effects)
  }

  /** Quiet runs of all the session's lines, then its farewell, complete the loop. */
  lemma Finish(inputs: seq<Input>, events: seq<Event>, calls: seq<string>, farewell: string)
    requires calls == ReplSession(inputs).calls && farewell == Farewell(ReplSession(inputs).end)
    requires |events| == |calls| && RanQuietly(events, calls)
    ensures Completed(inputs, events + [Said(farewell)], calls)
  {
  }

  /** Quiet runs followed by a run that lets an exception escape: the loop crashed on that line. */
  lemma CrashRecorded(inputs: seq<Input>, i: nat, events: seq<Event>, calls: seq<string>, line: string, effects: seq<Commands.Effect>)
    requires i <= |inputs| && SessionSoFar(inputs, i, calls + [line])
    requires |events| == |calls| && RanQuietly(events, calls) && Commands.Crashes(effects)
    ensures CrashedAt(inputs, Escaped(effects), events + [Ran(line, effects)], calls + [line])
  {
    CallsArePrefix(inputs, i, calls + [line]);
    assert (events + [Ran(line, effects)])[..|calls|] == events;
    assert (calls + [line])[..|calls|] == calls;
  }

  /** One line of the loop: `parser` runs it, and the record of runs either stays quiet or ends in the crash. */
  method RecordLine(ghost inputs: seq<Input>, ghost i: nat, line: string, reg: Providers.Registers, world: Commands.World,
                    ghost events: seq<Event>, ghost calls: seq<string>)
    returns (status: Option<int>, effects: seq<Commands.Effect>)
    requires line != [] && !IsSpace(line[0])
    requires i <= |inputs| && SessionSoFar(inputs, i, calls + [line])
    requires |events| == |calls| && RanQuietly(events, calls)
    modifies reg
    ensures status.None? <==> Commands.Crashes(effects)
    ensures status.None? ==> CrashedAt(inputs, Escaped(effects), events + [Ran(line, effects)], calls + [line])
    ensures status.Some? ==> RanQuietly(events + [Ran(line, effects)], calls + [line])
  {
    status, effects := RunLine(line, reg, world);
    if status.None? {
      CrashRecorded(inputs, i, events, calls, line, effects);
    } else {
      RanQuietlyExtend(events, calls, line, effects);
    }
  }

  /**
   * The `while True` loop of `main()`: reads lines until "exit"/"quit", an
   * interrupt or the end of input, handing each stripped non-blank line to
   * `parser`; an exception escaping a command ends it.
   */
  method Repl(inputs: seq<Input>, reg: Providers.Registers) returns (outcome: MainOutcome, events: seq<Event>, calls: seq<string>)
    modifies reg
    ensures outcome == Returned(0) || outcome.Crashed?
    ensures outcome == Returned(0) ==> Completed(inputs, events, calls)
    ensures outcome.Crashed? ==> CrashedAt(inputs, outcome.error, events, calls)
  {
    calls, events := [], [];
    var i := 0;
    while i < |inputs|
      invariant 0 <= i <= |inputs|
      invariant SessionSoFar(inputs, i, calls)
      invariant |events| == |calls| && RanQuietly(events, calls)
      decreases |inputs| - i
    {
      match inputs[i]
      case Interrupt =>
        StopAt(inputs, i, calls);
        Finish(inputs, events, calls, "\nGoodbye!");
        return Returned(0), events + [Said("\nGoodbye!")], calls;
      case Typed(text, world) =>
        var line := Strip(text);
        if IsQuit(line) {
          StopAt(inputs, i, calls);
          Finish(inputs, events, calls, "Goodbye!");
          return Returned(0), events + [Said("Goodbye!")], calls;
        }
        Advance(inputs, i, calls);
        if line != "" {
          StripSpec(text);
          var status, effects := RecordLine(inputs, i + 1, line, reg, world, events, calls);
          if status.None? {
            return Crashed(Escaped(effects)), events + [Ran(line, effects)], calls + [line];
          }
          calls := calls + [line];
          events := events + [Ran(line, effects)];
        }
      i := i + 1;
    }
    assert calls + [] == calls;
    Finish(inputs, events, calls, "\nGoodbye!");
    return Returned(0), events + [Said("\nGoodbye!")], calls;
  }

  /**
   * `main()`: classifies the arguments, checks for git and a work tree,
   * shows the banner and the server warning, then runs the loop.
   */
  method EntryPoint(argv: seq<string>, version: string, probes: Probes, inputs: seq<Input>,
              settings: Config.Settings, reg: Providers.Registers)
    returns (outcome: MainOutcome, events: seq<Event>, calls: seq<string>)
    modifies settings, reg
    ensures settings.llmUrl == old(settings.llmUrl)
    ensures settings.showBanner == (old(settings.showBanner) && Classify(argv, version) != Continue(Some(NoBanner)))
    ensures settings.useColor == (old(settings.useColor) && Classify(argv, version) != Continue(Some(NoColor)))
    ensures settings.stream == (old(settings.stream) || Classify(argv, version) == Continue(Some(Stream)))
    ensures Classify(argv, version).Quit? ==>
      outcome == SystemExit(Classify(argv, version).code) && calls == []
      && events == seq(|Classify(argv, version).lines|, k requires 0 <= k < |Classify(argv, version).lines| => Said(Classify(argv, version).lines[k]))
    ensures Classify(argv, version).Continue? && !probes.gitInstalled ==>
      outcome == Returned(1) && events == [ErrorShown("git not installed")] && calls == []
    ensures Classify(argv, version).Continue? && probes.gitInstalled && !probes.insideWorkTree ==>
      outcome == Returned(1) && events == [ErrorShown("not inside work tree")] && calls == []
    ensures Classify(argv, version).Continue? && probes.gitInstalled && probes.insideWorkTree ==>
      (outcome == Returned(0) || outcome.Crashed?)
      && |Startup(settings.showBanner, settings.useColor, probes.aiAvailable)| <= |events|
      && events[..|Startup(settings.showBanner, settings.useColor, probes.aiAvailable)|]
         == Startup(settings.showBanner, settings.useColor, probes.aiAvailable)
    ensures outcome == Returned(0) ==>
      var n := |Startup(settings.showBanner, settings.useColor, probes.aiAvailable)|;
      n <= |events| && Completed(inputs, events[n..], calls)
    ensures outcome.Crashed? ==>
      var n := |Startup(settings.showBanner, settings.useColor, probes.aiAvailable)|;
      n <= |events| && CrashedAt(inputs, outcome.error, events[n..], calls)
  {
    var exit, printed := HandleArgs(argv, version, settings);
    if exit.Some? {
      events := seq(|printed|, k requires 0 <= k < |printed| => Said(printed[k]));
      return SystemExit(exit.value), events, [];
    }
    if !probes.gitInstalled {
      return Returned(1), [ErrorShown("git not installed")], [];
    }
    if !probes.insideWorkTree {
      return Returned(1), [ErrorShown("not inside work tree")], [];
    }
    var startup := Startup(settings.showBanner, settings.useColor, probes.aiAvailable);
    var loopEvents;
    outcome, loopEvents, calls := Repl(inputs, reg);
    events := startup + loopEvents;
    assert events[..|startup|] == startup && events[|startup|..] == loopEvents;
  }
}
