/**
 * The interactive command dispatcher: a line is split into words, the first
 * word is looked up in a fixed table, and the handler found there runs on
 * the remaining words. Handlers read and write the registers of the
 * provider client (`gen_message`, `available_models`, `selected_model`).
 *
 * Git, the clipboard, the terminal and the model server are outside the
 * model: what they answer is part of a `World` value, and what the handlers
 * do to them is recorded as a sequence of `Effect`s.
 */
module Commands {
  import opened Wrappers
  import opened Text
  import opened Providers

  /** The handlers of the command table. */
  datatype Handler = CommitReq | Help | Copy | Start | List | Gen | Clear

  /** `supported_commands`: nine command words, two pairs of them sharing a handler. */
  const SupportedCommands: map<string, Handler> := map[
    "commit" := CommitReq, "help" := Help, "cp" := Copy, "start" := Start, "list" := List,
    "gen" := Gen, "generate" := Gen, "clear" := Clear, "cls" := Clear]

  /** The width generated messages are wrapped to. */
  const WrapWidth: nat := 72

  /** What the outside world answers while one command runs. */
  datatype World = World(
    diff: string,                       // git_utils.get_clean_diff()
    commit: string -> (int, string),    // git_utils.commit(message): status and report
    listing: Listing,                   // list_locals(), read by init_model_list()
    load: string -> HttpResponse,       // the reply of request_load_model(model)
    chat: string -> HttpResponse,       // the reply of the chat-completion request for a prompt
    generationPrompt: string,           // llm_providers.generation_prompt
    wrap: (string, nat) -> string)      // output.wrap_text(text, width)

  /** Exceptions a handler lets escape. */
  datatype PyError =
    | IndexError                // `commands[0]` of a line without words
    | UnboundLocalError         // `print_help` with arguments
    | MalformedData             // a listing or a chat reply the client cannot read

  /** What a command does to the terminal, git and the clipboard, in order. */
  datatype Effect =
    | Warned(text: string)           // output.print_warning
    | Reported(text: string)         // output.print_error
    | Succeeded(text: string)        // output.print_success
    | Printed(text: string)          // print
    | ShownGenerated(text: string)   // output.print_generated
    | Committed(message: string)     // git_utils.commit was called with this message
    | Copied(text: string)           // pyperclip.copy
    | ListFetched                    // llm_providers.init_model_list was called
    | LoadRequested(model: string)   // llm_providers.select_model was called
    | ScreenCleared                  // cmd_clear
    | Threw(error: PyError)         // an exception escaped; nothing follows it

  /** The registers after a command and what the command did. */
  datatype Step = Step(after: Snapshot, effects: seq<Effect>)

  const NoCommitMessageWarning: string := "No commit message detected. Skipping."
  const NoGeneratedMessageWarning: string := "No generated message found. Please run 'generate' first."
  const CopiedReport: string := "Copied to clipboard."
  const NoModelNamedError: string := "Please specify a model."
  const ListFailedError: string := "failed to list available local AI models. Is ollama running?"
  const NoModelsWarning: string := "No local AI models found."
  const NoChangesWarning: string := "No changes to the repository."
  const HelpText: string :=
    "\nThe following commands are available:\n\n"
    + "  start             Select a model to generate for you.\n"
    + "  list              List all available models.\n"
    + "  gen               Generate a new commit message.\n"
    + "  cp                Copy the last generated message to the clipboard.\n"
    + "  commit            Commit the last generated message.\n"
    + "  cls  | clear      Clear the terminal screen.\n"
    + "  exit | quit       Exit the program.\n"
    + "\nTo view help for a command, type help, followed by a space, and the\n"
    + "command's name.\n"

  /** The registers after `init_model_list()` read `listing`. */
  function AfterInit(s: Snapshot, listing: Listing): Snapshot {
    if listing.Listed? then s.(availableModels := Some(Names(listing.models))) else s
  }

  /** The registers after `select_model(model)` got the reply `load`. */
  function AfterSelect(s: Snapshot, model: string, load: HttpResponse): Snapshot {
    if LoadAnswer(model, load).0 == 0 then s.(selectedModel := Some(model)) else s
  }

  // ---------------------------------------------------------------- commit and copy

  /** `handle_commit_req`: commits the generated message unless there is none or it is empty. */
  function CommitStep(s: Snapshot, w: World): (r: Step)
    ensures r.after == s
    ensures r.effects != [] && (r.effects[0].Committed? <==> s.genMessage.Some? && s.genMessage.value != "")
    ensures !r.effects[0].Committed? ==> r.effects == [Warned(NoCommitMessageWarning)]
    ensures r.effects[0].Committed? ==>
      && r.effects[0].message == s.genMessage.value
      && |r.effects| == 2
      && (r.effects[1].Succeeded? <==> w.commit(s.genMessage.value).0 == 0)
      && (r.effects[1].Succeeded? || r.effects[1].Warned?)
      && r.effects[1].text == w.commit(s.genMessage.value).1
  {
    match s.genMessage
    case Some(m) =>
      if m == "" then Step(s, [Warned(NoCommitMessageWarning)])
      else
        var (out, msg) := w.commit(m);
        Step(s, [Committed(m), if out == 0 then Succeeded(msg) else Warned(msg)])
    case None => Step(s, [Warned(NoCommitMessageWarning)])
  }

  method HandleCommitReq(reg: Registers, w: World) returns (effects: seq<Effect>)
    ensures Step(reg.Values(), effects) == CommitStep(reg.Values(), w)
  {
    if reg.genMessage.None? || reg.genMessage.value == "" {
      return [Warned(NoCommitMessageWarning)];
    }
    var (out, msg) := w.commit(reg.genMessage.value);
    if out == 0 {
      effects := [Committed(reg.genMessage.value), Succeeded(msg)];
    } else {
      effects := [Committed(reg.genMessage.value), Warned(msg)];
    }
  }

  /** `copy_command`: copies the generated message, even an empty one; refuses only when there is none. */
  function CopyStep(s: Snapshot): (r: Step)
    ensures r.after == s
    ensures r.effects != [] && (r.effects[0].Copied? <==> s.genMessage.Some?)
    ensures r.effects[0].Copied? ==> r.effects == [Copied(s.genMessage.value), Succeeded(CopiedReport)]
    ensures !r.effects[0].Copied? ==> r.effects == [Warned(NoGeneratedMessageWarning)]
  {
    match s.genMessage
    case None => Step(s, [Warned(NoGeneratedMessageWarning)])
    case Some(m) => Step(s, [Copied(m), Succeeded(CopiedReport)])
  }

  method CopyCommand(reg: Registers) returns (effects: seq<Effect>)
    ensures Step(reg.Values(), effects) == CopyStep(reg.Values())
  {
    if reg.genMessage.None? {
      return [Warned(NoGeneratedMessageWarning)];
    }
    effects := [Copied(reg.genMessage.value), Succeeded(CopiedReport)];
  }

  // ---------------------------------------------------------------- start

  /** The model names `start_model` checks against: the register, filled in first when it was unset. */
  function KnownModels(s: Snapshot, w: World): Option<seq<string>> {
    if s.availableModels.None? then AfterInit(s, w.listing).availableModels else s.availableModels
  }

  /** A known, non-empty list of models that lacks `model`. */
  predicate Unlisted(known: Option<seq<string>>, model: string) {
    known.Some? && known.value != [] && model !in known.value
  }

  /**
   * `start_model(opts)`: fills the model list when it is unset, then asks
   * the server to load `opts[0]` unless no name was given or a non-empty
   * list lacks it.
   */
  function StartStep(opts: seq<string>, s: Snapshot, w: World): (r: Step)
    ensures r.after.genMessage == s.genMessage
    ensures r.effects != [] && (r.effects[0] == ListFetched <==> s.availableModels.None?)
    ensures r.after.availableModels == KnownModels(s, w)
    ensures r.after.selectedModel != s.selectedModel ==> opts != [] && r.after.selectedModel == Some(opts[0])
    ensures s.availableModels.None? && w.listing.ListingMalformed? ==> r == Step(s, [ListFetched, Threw(MalformedData)])
    ensures r.effects[|r.effects| - 1].LoadRequested? <==>
      && !(s.availableModels.None? && w.listing.ListingMalformed?)
      && opts != [] && !Unlisted(KnownModels(s, w), opts[0])
    ensures r.effects[|r.effects| - 1].LoadRequested? ==>
      r.effects[|r.effects| - 1].model == opts[0] && r.after == AfterSelect(s.(availableModels := KnownModels(s, w)), opts[0], w.load(opts[0]))
    ensures !r.effects[|r.effects| - 1].LoadRequested? ==> r.after.selectedModel == s.selectedModel
    ensures !(s.availableModels.None? && w.listing.ListingMalformed?) && opts == [] ==>
      r.effects[|r.effects| - 1] == Reported(NoModelNamedError)
    ensures !(s.availableModels.None? && w.listing.ListingMalformed?) && opts != [] && Unlisted(KnownModels(s, w), opts[0]) ==>
      r.effects[|r.effects| - 1] == Reported(opts[0] + " Not found.")
    ensures |r.effects| == (if s.availableModels.None? then 2 else 1)
  {
    var (s1, fetched) := if s.availableModels.None? then (AfterInit(s, w.listing), [ListFetched]) else (s, []);
    if s.availableModels.None? && w.listing.ListingMalformed? then Step(s1, fetched + [Threw(MalformedData)])
    else if opts == [] then Step(s1, fetched + [Reported(NoModelNamedError)])
    else if Unlisted(s1.availableModels, opts[0]) then Step(s1, fetched + [Reported(opts[0] + " Not found.")])
    else Step(AfterSelect(s1, opts[0], w.load(opts[0])), fetched + [LoadRequested(opts[0])])
  }

  method StartModel(reg: Registers, opts: seq<string>, w: World) returns (effects: seq<Effect>)
    modifies reg
    ensures Step(reg.Values(), effects) == StartStep(opts, old(reg.Values()), w)
  {
    effects := [];
    if reg.availableModels.None? {
      reg.InitModelList(w.listing);
      effects := [ListFetched];
      if w.listing.ListingMalformed? {
        return effects + [Threw(MalformedData)];
      }
    }
    if opts == [] {
      return effects + [Reported(NoModelNamedError)];
    }
    var model := opts[0];
    if reg.availableModels.Some? && reg.availableModels.value != [] && model !in reg.availableModels.value {
      return effects + [Reported(model + " Not found.")];
    }
    var _, _ := reg.SelectModel(model, w.load(model));
    effects := effects + [LoadRequested(model)];
  }

  // ---------------------------------------------------------------- list

  /** One `print` per name, in list order. */
  function PrintedNames(names: seq<string>): (r: seq<Effect>)
    ensures |r| == |names|
    ensures forall i :: 0 <= i < |names| ==> r[i] == Printed(names[i])
  {
    seq(|names|, i requires 0 <= i < |names| => Printed(names[i]))
  }

  /**
   * `print_available_models`: always refreshes the list first, then reports
   * a failed listing, warns about an empty one, or prints every name.
   */
  function ListStep(s: Snapshot, w: World): (r: Step)
    ensures r.after == AfterInit(s, w.listing)
    ensures r.effects != [] && r.effects[0] == ListFetched
    ensures w.listing.ListingMalformed? ==> r.effects == [ListFetched, Threw(MalformedData)]
    ensures !w.listing.ListingMalformed? && r.after.availableModels.None? ==> r.effects == [ListFetched, Reported(ListFailedError)]
    ensures !w.listing.ListingMalformed? && r.after.availableModels == Some([]) ==> r.effects == [ListFetched, Warned(NoModelsWarning)]
    ensures !w.listing.ListingMalformed? && r.after.availableModels.Some? && r.after.availableModels.value != [] ==>
      |r.effects| == 1 + |r.after.availableModels.value|
      && forall i :: 0 <= i < |r.after.availableModels.value| ==> r.effects[i + 1] == Printed(r.after.availableModels.value[i])
  {
    var s1 := AfterInit(s, w.listing);
    if w.listing.ListingMalformed? then Step(s1, [ListFetched, Threw(MalformedData)])
    else match s1.availableModels
      case None => Step(s1, [ListFetched, Reported(ListFailedError)])
      case Some(names) =>
        if names == [] then Step(s1, [ListFetched, Warned(NoModelsWarning)])
        else Step(s1, [ListFetched] + PrintedNames(names))
  }

  method PrintAvailableModels(reg: Registers, w: World) returns (effects: seq<Effect>)
    modifies reg
    ensures Step(reg.Values(), effects) == ListStep(old(reg.Values()), w)
  {
    reg.InitModelList(w.listing);
    effects := [ListFetched];
    if w.listing.ListingMalformed? {
      return effects + [Threw(MalformedData)];
    }
    if reg.availableModels.None? {
      return effects + [Reported(ListFailedError)];
    }
    var names := reg.availableModels.value;
    if names == [] {
      return effects + [Warned(NoModelsWarning)];
    }
    var i := 0;
    while i < |names|
      invariant 0 <= i <= |names|
      invariant effects == [ListFetched] + PrintedNames(names[..i])
    {
      assert names[..i + 1] == names[..i] + [names[i]];
      effects := effects + [Printed(names[i])];
      i := i + 1;
    }
    assert names[..|names|] == names;
  }

  // ---------------------------------------------------------------- generate

  /** The prompt sent for a diff. */
  function Prompt(w: World): string {
    w.generationPrompt + w.diff
  }

  /**
   * `generate_message`: with a non-empty diff, asks for a message on the
   * prompt and diff; a success is wrapped to 72 columns, stored and shown,
   * a failure is reported and leaves the stored message alone.
   */
  function GenerateStep(s: Snapshot, w: World): (r: Step)
    ensures r.after.selectedModel == s.selectedModel && r.after.availableModels == s.availableModels
    ensures w.diff == "" ==> r == Step(s, [Warned(NoChangesWarning)])
    ensures var g := Generate(s.selectedModel, w.chat(Prompt(w)));
      w.diff != "" && g.Generated? && g.code == 0 ==>
        r.after.genMessage == Some(w.wrap(g.text, WrapWidth)) && r.effects == [ShownGenerated(w.wrap(g.text, WrapWidth))]
    ensures var g := Generate(s.selectedModel, w.chat(Prompt(w)));
      w.diff != "" && g.Generated? && g.code != 0 ==> r == Step(s, [Reported(g.text)])
    ensures var g := Generate(s.selectedModel, w.chat(Prompt(w)));
      w.diff != "" && g.MalformedReply? ==> r == Step(s, [Threw(MalformedData)])
  {
    if w.diff == "" then Step(s, [Warned(NoChangesWarning)])
    else match Generate(s.selectedModel, w.chat(Prompt(w)))
      case MalformedReply => Step(s, [Threw(MalformedData)])
      case Generated(stat, res) =>
        if stat != 0 then Step(s, [Reported(res)])
        else
          var wrapped := w.wrap(res, WrapWidth);
          Step(s.(genMessage := Some(wrapped)), [ShownGenerated(wrapped)])
  }

  method GenerateMessage(reg: Registers, w: World) returns (effects: seq<Effect>)
    modifies reg
    ensures Step(reg.Values(), effects) == GenerateStep(old(reg.Values()), w)
  {
    if w.diff == "" {
      return [Warned(NoChangesWarning)];
    }
    var prompt := w.generationPrompt + w.diff;
    var outcome := Generate(reg.selectedModel, w.chat(prompt));
    if outcome.MalformedReply? {
      return [Threw(MalformedData)];
    }
    if outcome.code != 0 {
      return [Reported(outcome.text)];
    }
    var wrapped := w.wrap(outcome.text, WrapWidth);
    reg.genMessage := Some(wrapped);
    effects := [ShownGenerated(wrapped)];
  }

  // ---------------------------------------------------------------- dispatch

  /** What running handler `h` on `opts` does. */
  function Run(h: Handler, opts: seq<string>, s: Snapshot, w: World): (r: Step)
    ensures r.after.genMessage != s.genMessage ==> h == Gen
    ensures r.after.selectedModel != s.selectedModel ==> h == Start
    ensures r.after.availableModels != s.availableModels ==> h == Start || h == List
  {
    match h
    case CommitReq => CommitStep(s, w)
    case Help => Step(s, if opts == [] then [Printed(HelpText)] else [Threw(UnboundLocalError)])
    case Copy => CopyStep(s)
    case Start => StartStep(opts, s, w)
    case List => ListStep(s, w)
    case Gen => GenerateStep(s, w)
    case Clear => Step(s, [ScreenCleared])
  }

  method Dispatch(h: Handler, opts: seq<string>, reg: Registers, w: World) returns (effects: seq<Effect>)
    modifies reg
    ensures Step(reg.Values(), effects) == Run(h, opts, old(reg.Values()), w)
  {
    match h
    case CommitReq => effects := HandleCommitReq(reg, w);
    case Help => effects := if opts == [] then [Printed(HelpText)] else [Threw(UnboundLocalError)];
    case Copy => effects := CopyCommand(reg);
    case Start => effects := StartModel(reg, opts, w);
    case List => effects := PrintAvailableModels(reg, w);
    case Gen => effects := GenerateMessage(reg, w);
    case Clear => effects := [ScreenCleared];
  }

  /** How `parser` reads a line: no word at all, an unknown first word, or a command and its arguments. */
  datatype Parsed = NoWords | Unsupported(word: string) | Command(handler: Handler, opts: seq<string>)

  function Parse(userInput: string): (r: Parsed)
    ensures r.NoWords? <==> IsBlank(userInput)
    ensures r.Unsupported? ==> Split(userInput) != [] && Split(userInput)[0] == r.word && r.word !in SupportedCommands
    ensures r.Command? ==> exists word :: word in SupportedCommands && SupportedCommands[word] == r.handler && Split(userInput) == [word] + r.opts
  {
    SplitEmptyIffBlank(userInput);
    var commands := Split(userInput);
    if commands == [] then NoWords
    else if commands[0] in SupportedCommands then
      assert commands == [commands[0]] + commands[1..];
      Command(SupportedCommands[commands[0]], commands[1..])
    else Unsupported(commands[0])
  }

  /** The effects end in an escaped exception. */
  predicate Crashes(effects: seq<Effect>) {
    effects != [] && effects[|effects| - 1].Threw?
  }

  /**
   * `parser(user_input)`: the status it returns (none when it raises, be it
   * on a line without words or in the handler) and what was done.
   */
  function ParserOutcome(userInput: string, s: Snapshot, w: World): (r: (Option<int>, Step))
    ensures r.0.None? <==> Crashes(r.1.effects)
    ensures IsBlank(userInput) ==> r == (None, Step(s, [Threw(IndexError)]))
    ensures r.0 == Some(1) <==> Parse(userInput).Unsupported?
    ensures r.0 == Some(1) ==> r.1 == Step(s, [])
    ensures r.0 == Some(0) <==> Parse(userInput).Command? && !Crashes(r.1.effects)
    ensures Parse(userInput).Command? ==> r.1 == Run(Parse(userInput).handler, Parse(userInput).opts, s, w)
  {
    match Parse(userInput)
    case NoWords => (None, Step(s, [Threw(IndexError)]))
    case Unsupported(_) => (Some(1), Step(s, []))
    case Command(h, opts) =>
      var st := Run(h, opts, s, w);
      (if Crashes(st.effects) then None else Some(0), st)
  }

  method Parser(userInput: string, reg: Registers, w: World) returns (status: Option<int>, effects: seq<Effect>)
    modifies reg
    ensures (status, Step(reg.Values(), effects)) == ParserOutcome(userInput, old(reg.Values()), w)
  {
    var commands := Split(userInput);
    SplitEmptyIffBlank(userInput);
    if commands == [] {
      return None, [Threw(IndexError)];
    }
    if commands[0] in SupportedCommands {
      assert commands == [commands[0]] + commands[1..];
      effects := Dispatch(SupportedCommands[commands[0]], commands[1..], reg, w);
      status := if Crashes(effects) then None else Some(0);
    } else {
      status, effects := Some(1), [];
    }
  }

  /** A line whose first word is "exit" or "quit" reads as an unsupported word. */
  lemma ExitIsUnsupported(word: string, rest: string)
    requires word == "exit" || word == "quit"
    requires rest == [] || IsSpace(rest[0])
    ensures Parse(word + rest) == Unsupported(word)
  {
    SplitWordThenRest(word, rest);
  }

  /** A line whose first word is "exit" or "quit" is not a command: `parser` answers 1 and does nothing. */
  lemma ExitIsNotACommand(word: string, rest: string, s: Snapshot, w: World)
    requires word == "exit" || word == "quit"
    requires rest == [] || IsSpace(rest[0])
    ensures ParserOutcome(word + rest, s, w) == (Some(1), Step(s, []))
  {
    ExitIsUnsupported(word, rest);
  }
}
