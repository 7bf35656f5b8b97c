# CommiZard core, modelled in Dafny

CommiZard is an interactive command-line helper that writes git commit
messages with a locally served language model (Ollama). This project models
its core and proves properties about that model:

- `config.dfy` (module `Config`): the process-wide settings, namely the base
  URL of the model server and the colour, banner and streaming flags. It also
  composes the chat-completion URL.
- `providers.dfy` (module `Providers`): the provider client
  `commizard.llm_providers`, as its unit tests pin it down. This covers the
  transport result `HttpResponse` with its negative sentinel codes and the
  buffered `HttpRequest`. It also covers the status-code texts of
  `get_error_message`, the model listing, single-shot `generate`,
  `request_load_model` and the three module registers (`selected_model`,
  `available_models`, `gen_message`). `init_model_list`, `select_model` and
  `unload_model` update the first two; only message generation sets the
  third.
- `streaming.dfy` (module `Streaming`): the `StreamRequest` session, which
  opens at once, iterates line by line and is released on exit. It also
  covers `stream_generate`, which reads server-sent-event lines until
  `[DONE]`, a failing frame, the end, or a severed connection.
- `commands.dfy` (module `Commands`): the command table and `parser`, plus the
  handlers `handle_commit_req`, `print_help`, `copy_command`, `start_model`,
  `print_available_models`, `generate_message` and `cmd_clear`. The five
  handlers `handle_commit_req`, `copy_command`, `start_model`,
  `print_available_models` and `generate_message` are methods on the
  registers, each proved against a function that gives the new registers and
  the ordered effects on terminal, git and clipboard. `print_help` and
  `cmd_clear` have no method of their own: they are branches of
  `Commands.Run` and `Commands.Dispatch`.
- `cli.dfy` (module `Cli`): `handle_args`, and `main` with its
  read-evaluate loop.
- `start.dfy` (module `Start`): the colour gradient `gradient_text` over the
  banner, and the `local_ai_available` probe.
- `text.dfy`, `json.dfy` and `wrappers.dfy` provide the Python built-ins the
  program relies on (`strip`, `split`, `splitlines`, `join`, `upper`, integer
  and hexadecimal formatting), decoded JSON values, and `Option`/`Result`.

Everything outside the program is an input:

- What the network answers (`NetOutcome`, `StreamOutcome`).
- What JSON decoding gives for a payload (a `decode` function).
- What git, the clipboard and the model server answer while a command runs
  (`Commands.World`).
- The startup probes (`Cli.Probes`).
- The typed lines and interrupts (`Cli.Input`).

The source of `llm_providers.py` is not part of this model. Its behaviour
is taken from `tests/unit/test_llm_providers.py`, and the table below cites
that test file for it.

## Model

| member | source | states |
|---|---|---|
| Config.RequestUrl | src/commizard/config.py:22-26 | the request URL is the base URL followed directly by `v1/chat/completions` |
| Config.RequestUrlRoundTrip | src/commizard/config.py:22-26 | the base URL can be read back from the request URL, so distinct bases give distinct request URLs |
| Config.Settings.constructor | src/commizard/config.py:3-11 | the URL starts as `http://127.0.0.1:11434/`; colour, banner and streaming start on |
| Config.Settings.SetUrl | src/commizard/config.py:14-19 | replaces the base URL and no flag; the request URL then follows the new base |
| Config.Settings.GenRequestUrl | src/commizard/config.py:22-26 | the URL handed out is the current base URL followed directly by `v1/chat/completions` |
| Providers.SentinelCode | tests/unit/test_llm_providers.py:65-88 | each transport exception maps to its own code in -1..-5 |
| Providers.HttpResponse.ReturnCode | tests/unit/test_llm_providers.py:91-114 | the return code is the HTTP status of an answered call and the sentinel of a failed one |
| Providers.HttpResponse.ErrMessage | tests/unit/test_llm_providers.py:91-114 | the error message is empty exactly when the call is not an error |
| Providers.TransportMessage | tests/unit/test_llm_providers.py:65-88 | every transport failure has a non-empty message |
| Providers.HttpResponse.IsError | tests/unit/test_llm_providers.py:91-114 | a response is an error exactly when the call raised a transport exception and never reached the server |
| Providers.ErrorIffNegative | tests/unit/test_llm_providers.py:91-114 | `is_error` holds exactly for transport failures; their code lies in -1..-5 with the fixed message; answered calls have a non-negative code and an empty message |
| Providers.SentinelsDistinct | tests/unit/test_llm_providers.py:65-88 | two failures share a sentinel code, or a message, only when they are the same failure |
| Providers.ResponseOf | tests/unit/test_llm_providers.py:35-62 | an exception leaves no body and the sentinel code; a reply keeps its status, with the JSON body when it decodes and the raw text otherwise |
| Providers.HttpRequest | tests/unit/test_llm_providers.py:12-33 | the verb is upper-cased; an unknown verb fails with "<VERB> is not a valid method."; a known one makes exactly the call with the given URL and options |
| Providers.InvalidMethodMakesNoCall | tests/unit/test_llm_providers.py:12-33 | a refused verb gives the same failure whatever the network would have done |
| Providers.ReplyIsNeverError | tests/unit/test_llm_providers.py:117-198 | any reply that reached the server, whatever its status, is not an error, has an empty message and keeps its status as return code |
| Providers.GetErrorMessage | tests/unit/test_llm_providers.py:532-564 | every status text opens with "Error "; with `ErrorMessageNamesCode` and `ErrorMessageInjective` it names its own code and no two codes share a text |
| Providers.ErrorMessageNamesCode | tests/unit/test_llm_providers.py:532-564 | every status text starts with "Error " and names its own code before the first colon |
| Providers.ErrorMessageInjective | tests/unit/test_llm_providers.py:532-564 | different codes never get the same status text |
| Providers.Text503 | tests/unit/test_llm_providers.py:532-564 | 503 gets the service-unavailable text |
| Providers.Text500 | tests/unit/test_llm_providers.py:765-777 | 500 gets the detailed internal-server-error text |
| Providers.Text499 | tests/unit/test_llm_providers.py:532-564 | 499 falls in the client-error band |
| Providers.Text599 | tests/unit/test_llm_providers.py:532-564 | 599 falls in the server-error band |
| Providers.Text999 | tests/unit/test_llm_providers.py:532-564 | a code outside 400-599 gets the unexpected-response text |
| Providers.DetailedInternalServerError | tests/unit/test_llm_providers.py:532-564 | the 500 text is longer than the text of any other code in 400-599 |
| Providers.Entries | tests/unit/test_llm_providers.py:411-454 | defined exactly when every entry has a string `name` and a string `details.parameter_size`; then one `(name, parameter_size)` pair per entry, read from those fields, in server order |
| Providers.ListLocals | tests/unit/test_llm_providers.py:411-454 | a failed call, a missing body and a null body list nothing; a body whose `models` array holds well-formed entries lists their pairs in order; a text body, or any other JSON body, cannot be read |
| Providers.ListLocalsExample | tests/unit/test_llm_providers.py:411-454 | two entries with extra detail fields list as `[model1, 5b]`, `[model2, 135m]`; an empty `models` array lists nothing |
| Providers.Names | tests/unit/test_llm_providers.py:457-472 | the names of the listed models, one per model and in order |
| Providers.Generate | tests/unit/test_llm_providers.py:733-845 | no model gives (1, the no-model message); a transport failure gives (1, its message); a non-200 reply gives (code, its status text); code 0 only for a selected model and an answered call whose status is 200 (or 0, which is passed through as the code) |
| Providers.GenerateWithoutModelMakesNoRequest | tests/unit/test_llm_providers.py:836-845 | without a selected model the outcome does not depend on any reply |
| Providers.GenerateSuccess | tests/unit/test_llm_providers.py:733-811 | a 200 reply with `choices[0].message.content` gives (0, that content verbatim) |
| Providers.RequestLoadModel | tests/unit/test_llm_providers.py:475-483 | a POST to `<base>api/generate` with exactly two options: JSON naming the model, and timeout (0.3, 600) |
| Providers.LoadAnswer | tests/unit/test_llm_providers.py:847-895 | code 0 exactly for a 200 reply with `done_reason` "load", with "<model> loaded."; a transport failure reports "failed to load <model>: <message>", another status its status text, and a 200 without that reason the unknown-problem message |
| Providers.Registers.constructor | tests/unit/test_llm_providers.py:457-472 | all three registers start unset |
| Providers.Registers.InitModelList | tests/unit/test_llm_providers.py:457-472 | a listing stores its names; a failed listing leaves the register; the other registers are unchanged |
| Providers.Registers.SelectModel | tests/unit/test_llm_providers.py:847-895 | answers as `LoadAnswer`; selects the model only when it loaded; nothing else changes |
| Providers.Registers.UnloadModel | tests/unit/test_llm_providers.py:486-529 | nothing selected gives nothing to unload; a failed request keeps the selection; a successful one reports the model and clears the selection |
| Streaming.MergeDefaults | tests/unit/test_llm_providers.py:201-289 | the caller's options win key by key; `stream` and `timeout` defaults fill only missing keys |
| Streaming.GenerationStreamOptions | tests/unit/test_llm_providers.py:201-289 | the generation stream is opened with exactly three options: its JSON body, `stream` on and the (0.5, 5) timeout |
| Streaming.OpenFailureMessage | tests/unit/test_llm_providers.py:236-288 | every failure to open a stream has a non-empty message; it is the plain request's message exactly for an HTTP error and an ambiguous error, the other three kinds have texts of their own |
| Streaming.EffectiveEncoding | tests/unit/test_llm_providers.py:290-307 | a declared encoding is kept; a response that declares none is read as UTF-8 |
| Streaming.StreamRequest.constructor | tests/unit/test_llm_providers.py:201-307 | opening records the transport message, or the status text of a non-200 reply, with no response; a 200 keeps the response with its encoding (UTF-8 when none is declared) |
| Streaming.StreamRequest.Exit | tests/unit/test_llm_providers.py:310-350 | closes the response when there is one and leaves its encoding alone; answers False while an exception passes and None otherwise |
| Streaming.StreamRequest.Iter | tests/unit/test_llm_providers.py:387-408 | a failed session fails with its recorded message; an open one starts at the first line |
| Streaming.StreamRequest.Next | tests/unit/test_llm_providers.py:353-385 | yields the lines in order; at the end, a severed connection gives the stream error and a clean one the end of iteration |
| Streaming.StreamResponse.Close | tests/unit/test_llm_providers.py:310-350 | closing is counted once per call |
| Streaming.DeltaContent | tests/unit/test_llm_providers.py:567-721 | `choices[0].delta.content` as a string is the fragment; a first choice without a delta, or a delta without content, is skipped; every other shape is invalid output |
| Streaming.ParseFrame | tests/unit/test_llm_providers.py:567-721 | comments, blank and non-`data:` lines are skipped; `[DONE]` ends the stream exactly when the stripped payload is `[DONE]`; an undecodable payload fails with the decode message; a decoded payload contributes its delta content |
| Streaming.DoneStopsReading | tests/unit/test_llm_providers.py:567-669 | nothing after the `[DONE]` line is read |
| Streaming.SkippedLineIsIgnored | tests/unit/test_llm_providers.py:567-669 | a skipped line changes neither the fragments nor the stop |
| Streaming.StreamOutcomeOf | tests/unit/test_llm_providers.py:567-730 | no model gives (1, the no-model message); an opening failure gives (1, its message) and a non-200 reply (1, its status text), with nothing shown; a 200 stream gives what its scanned lines give |
| Streaming.ScanFrames | tests/unit/test_llm_providers.py:646-730 | scanning the response lines yields at most one fragment per line, and no lines give no fragments and the end of lines; `DoneStopsReading` and `SkippedLineIsIgnored` state how `[DONE]` and skipped lines steer it |
| Streaming.ScanResult | tests/unit/test_llm_providers.py:671-730 | code 0 and the concatenated fragments exactly when `[DONE]` was seen or the lines ended on an intact connection; a failing frame gives (1, its message), a severed connection (1, the severed message); all fragments read are shown |
| Streaming.ReadFrames | tests/unit/test_llm_providers.py:567-730 | the loop's fragments and stop are those of the scan of the response lines; a severed connection at the end raises the stream error |
| Streaming.StreamGenerate | tests/unit/test_llm_providers.py:567-730 | the returned code, text and shown fragments are those of `StreamOutcomeOf`; a session is opened exactly when a model is selected, as a POST to the chat-completions URL whose options are the JSON body it is given, with the `stream` and `timeout` defaults filled in; its response exists exactly for an opened 200 reply and is closed exactly once |
| Commands.CommitStep | src/commizard/commands.py:16-27 | commits the stored message unless it is missing or empty (then warns); reports success exactly when git answers 0 |
| Commands.HandleCommitReq | src/commizard/commands.py:16-27 | the effects are those of `CommitStep`; the registers are untouched |
| Commands.CopyStep | src/commizard/commands.py:72-86 | copies the stored message, even an empty one, then reports; warns only when there is none |
| Commands.CopyCommand | src/commizard/commands.py:72-86 | the effects are those of `CopyStep` |
| Commands.StartStep | src/commizard/commands.py:89-110 | fills an unset model list first; reports "Please specify a model." without a name and "<name> Not found." for a name a non-empty list lacks; otherwise loads `opts[0]`; only a load can change the selection, and only to `opts[0]` |
| Commands.StartModel | src/commizard/commands.py:89-110 | the new registers and effects are those of `StartStep` |
| Commands.PrintedNames | src/commizard/commands.py:113-127 | one print per name, in list order |
| Commands.ListStep | src/commizard/commands.py:113-127 | always refreshes the list, then reports a failed listing, warns about an empty one, or prints every name in order |
| Commands.PrintAvailableModels | src/commizard/commands.py:113-127 | the new registers and effects are those of `ListStep` |
| Commands.GenerateStep | src/commizard/commands.py:130-148 | no diff warns; a success stores and shows the text wrapped to 72 columns; a failure reports its text and leaves the stored message alone |
| Commands.GenerateMessage | src/commizard/commands.py:130-148 | the new registers and effects are those of `GenerateStep` |
| Commands.Run | src/commizard/commands.py:16-159 | only generation changes the stored message; only start changes the selection; only start and list change the model list |
| Commands.Dispatch | src/commizard/commands.py:162-172 | running a handler has the registers and effects `Run` gives |
| Commands.Parse | src/commizard/commands.py:175-193 | no word exactly for a blank line; otherwise the first word picks the handler and the other words are its arguments |
| Commands.ParserOutcome | src/commizard/commands.py:175-193 | no status exactly when an exception escapes: IndexError on a blank line, or one from the handler; a supported first word otherwise gives 0 and runs its handler; any other word gives 1 and does nothing |
| Commands.Parser | src/commizard/commands.py:175-193 | status, registers and effects are those of `ParserOutcome` |
| Commands.ExitIsUnsupported | src/commizard/commands.py:162-172 | "exit" and "quit" are not in the command table |
| Commands.ExitIsNotACommand | src/commizard/commands.py:175-193 | a line starting with "exit" or "quit" gives 1 and does nothing |
| Cli.Classify | src/commizard/cli.py:27-54 | fewer than two arguments continue; an unknown first argument exits 2 with two lines; `-v`/`--version` exit 0 printing "CommiZard <version>", `-h`/`--help` exit 0 printing the stripped help; `--no-banner`, `--no-color` and `--stream` continue, each with its own flag |
| Cli.OnlyFirstArgumentCounts | src/commizard/cli.py:24-54 | arguments after the first never change the decision |
| Cli.HandleArgs | src/commizard/cli.py:27-54 | returns the decision's exit code and lines; `--no-banner` clears the banner flag, `--no-color` the colour flag, `--stream` sets streaming, and nothing else changes |
| Cli.SessionCallsAreCommands | src/commizard/cli.py:91-103 | every line handed to `parser` is stripped, non-blank and not a quit word |
| Cli.QuitLineEndsSession | src/commizard/cli.py:91-96 | a line that strips to "exit" or "quit" ends the session with no call |
| Cli.QuitStopsReading | src/commizard/cli.py:91-96 | nothing typed after a quit line is handed to `parser` |
| Cli.BlankLineIsSkipped | src/commizard/cli.py:97-98 | a blank line changes nothing in the session |
| Cli.DispatcherAlwaysFindsAWord | src/commizard/cli.py:91-103 | a line the loop hands `parser` always has a first word, so `parser` raises on it only from inside a handler |
| Cli.Startup | src/commizard/cli.py:84-89 | the banner is shown exactly when it is on, first; the warning exactly when the server did not answer |
| Cli.RunLine | src/commizard/cli.py:99 | the line goes to `parser`: the status, the new registers and the effects are exactly those `Commands.ParserOutcome` gives for the line, the registers before and the world; there is no status exactly when the command lets an exception escape |
| Cli.SessionFrom | src/commizard/cli.py:91-103 | reading from position i on hands `parser` at most one line per remaining input, and nothing once the input is exhausted; `SessionCallsAreCommands`, `QuitStopsReading` and `BlankLineIsSkipped` state which lines |
| Cli.ReplSession | src/commizard/cli.py:91-103 | the whole session hands `parser` at most one line per input, and an empty input ends the session at end of input with no call |
| Cli.Repl | src/commizard/cli.py:91-103 | returning 0 hands `parser` exactly the session's lines, records one quiet run per line and ends with the matching farewell; a crash happens only when the last line's command lets an exception escape, after a prefix of those lines ran quietly |
| Cli.EntryPoint | src/commizard/cli.py:57-103 | `--no-banner`, `--no-color` and `--stream` set their flags as `Classify` decides and the URL is untouched; an exiting option ends with its code and lines; a missing git or work tree returns 1 with its error; otherwise the startup events come first, and the events after them satisfy what `Repl` promises: a completed session on 0, a crash in its last command otherwise |
| Text.StripSpec | src/commizard/cli.py:93 | a stripped line neither starts nor ends with whitespace, and it is empty exactly when the line is blank |
| Text.StripIsInfix | src/commizard/cli.py:93 | a stripped line is a contiguous part of the line with only whitespace around it |
| Text.TrimStartSpec | src/commizard/cli.py:93 | `lstrip` removes exactly a maximal whitespace prefix |
| Text.TrimEndSpec | src/commizard/cli.py:93 | `rstrip` removes exactly a maximal whitespace suffix |
| Text.Split | src/commizard/commands.py:185 | `split()` yields non-empty words free of whitespace |
| Text.SplitEmptyIffBlank | src/commizard/commands.py:185-186 | `split()` finds no word exactly in a blank line |
| Text.SplitWordThenRest | src/commizard/commands.py:185-186 | a word followed by whitespace splits into that word first |
| Text.SplitJoinWords | src/commizard/commands.py:185 | `split()` undoes joining words with single spaces |
| Text.SplitLines | src/commizard/start.py:35 | no line holds a line break; no lines exactly for empty text |
| Text.SplitLinesJoin | src/commizard/start.py:35 | joining lines with line breaks and splitting again gives them back when the last is non-empty |
| Text.Upper | tests/unit/test_llm_providers.py:12-33 | upper-casing keeps the length and maps every character |
| Text.DecimalRoundTrip | tests/unit/test_llm_providers.py:532-564 | the decimal text of an integer parses back to it |
| Text.DecimalInjective | tests/unit/test_llm_providers.py:532-564 | different integers have different decimal texts |
| Text.Hex2 | src/commizard/start.py:59 | a byte is written as exactly two lower-case hexadecimal digits |
| Text.Hex2RoundTrip | src/commizard/start.py:59 | the two digits read back to the byte |
| Json.Get | tests/unit/test_llm_providers.py:567-721 | `.get` is nothing for a missing key and for an explicit null |
| Start.Offset | src/commizard/start.py:44-58 | the channel offset at column `i` lies between 0 and the channel difference, and is 0 at the first column |
| Start.Shade | src/commizard/start.py:44-58 | a channel value lies between the two end values and equals the start value at the first column |
| Start.Tag | src/commizard/start.py:59 | a tag is nine characters `[#rrggbb]` with lower-case hex digits |
| Start.TagRoundTrip | src/commizard/start.py:59 | the colour can be read back from its tag |
| Start.ColumnColor | src/commizard/start.py:44-58 | the first column has the start colour |
| Start.ColumnTags | src/commizard/start.py:42-59 | one nine-character tag per column, each that column's colour |
| Start.TaggedPrefix | src/commizard/start.py:60-64 | every character gains exactly nine characters of tag |
| Start.UntagTagged | src/commizard/start.py:60-64 | removing the tags from a tagged line gives its characters back, each once and in order |
| Start.TaggedLines | src/commizard/start.py:35-65 | every line is fully tagged; the tag before column `i` is the colour of column `i` on every line long enough to have it |
| Start.MaxLen | src/commizard/start.py:36 | the width is the length of the widest line |
| Start.GradientSpec | src/commizard/start.py:23-65 | empty text fails; a colour without a triplet gives the text back; otherwise the tagged lines are joined by line breaks |
| Start.TagColumn | src/commizard/start.py:59-64 | one outer pass appends column `i`'s tag and character to exactly the lines that reach it |
| Start.GradientText | src/commizard/start.py:23-65 | the column-by-column loop returns what `GradientSpec` describes |
| Start.LocalAiAvailable | src/commizard/start.py:92-103 | available exactly when the version endpoint answers 200 with a JSON object holding `version` |

## Left out

- `llm_providers.py` itself is not part of this model. The client is modelled from what its unit tests pin down.
- `output.py`: the line-wrapping helper `wrap_text` and the rich console are not part of this model. Wrapping is the `wrap` function of `Commands.World`. Printing is recorded as effects and events.
- `stream_generate`'s live display is recorded as the sequence of fragments it is handed. Its rendering is not modelled.
- The body of the unload request, and the body and prompt text of the chat request, are not modelled. Each reply is an input.
- Streaming.StreamGenerate: the JSON body of the stream request (the model name and the prompt) is a parameter, `payload`. How it is built from the prompt is not modelled. No test checks the POST verb or the chat-completions URL of the stream request: the tests only check that the request is made once.
- The network, JSON decoding, git, the clipboard and terminal clearing are inputs or recorded effects.
- `check_git_installed` and `is_inside_working_tree` are the probes `Cli.Probes`. They look outside the program, at the installed executables and the current directory.
- `main` starts `init_console` and two probes (the server check and the git check) in a thread pool. Their concurrency is not modelled: their results are inputs, taken in the order `main` reads them.
- `init_console`, `print_welcome` and the banner text are not modelled beyond the `BannerShown` event. `print_welcome`'s choice between the gradient and plain purple depends on the terminal.
- Standard output and standard error are not told apart.
- Start.Shade: computes the channel value exactly and rounds it down, as `int` does for the non-negative value. The program multiplies by the floating-point `i / total_chars`, so floating-point rounding error is not modelled.
- Text.Strip, Text.Split, Text.Upper: whitespace is the six ASCII whitespace characters and upper-casing covers ASCII letters only. Python's Unicode tables are not modelled.
- Text.SplitLines: breaks only at "\n". The other separators Python's `splitlines` knows are not modelled.
- `print_help` with arguments is modelled as raising `UnboundLocalError`. That is what its code does when given arguments, and the help for single commands is not modelled.
- `cmd_clear` is a single `ScreenCleared` effect.
- A listing body without a `models` array, or an entry without its fields, is modelled as an exception escaping (`ListingMalformed`). The same goes for a chat reply without `choices[0].message.content`.
- Providers.Entries: an entry whose `name` or `details.parameter_size` is present but not a string is also read as malformed (`ListingMalformed`). No test checks this choice.
- Streaming.DeltaContent: `Json.Get` reads an explicit `null` as missing, so a frame whose `content` is `null` is skipped. No test checks this choice.
- Cli.Repl: an interrupt is only read at the prompt (`Cli.Input.Interrupt`). In `main`, the `try` also covers the command runs (src/commizard/cli.py:90-101), so Ctrl-C while `parser` runs a command (during generation, say) prints "\nGoodbye!" and returns 0. The model has no interrupt during a command.
- Providers.SentinelCode: only the five transport exception kinds the tests name are modelled.
- The console output of `select_model` and `unload_model` is given as their return values, not as printed text.
- `Providers.ValidMethods` holds the nine standard HTTP verbs. The unit tests accept GET, DELETE, POST, PATCH and PUT, and refuse the made-up verbs "FOO" and "doesn't exist". HEAD, OPTIONS, CONNECT and TRACE are an extrapolation.
- `Providers.StatusDetail`: the unit tests pin the texts of 503, 499, 599 and 999, and `test_generate` pins the whole 500 text. The band edges at 400 and 500 (where the client-error text starts and where it gives way to the server-error text) are an extrapolation.
- Cli.Repl: records each line's effects and whether they let an exception escape, but does not restate, line by line, that they are the `Commands.ParserOutcome` of the registers at that point. That tie is stated once, by `Cli.RunLine`, which the loop calls for every line.
- `noxfile.py` (the development task runner) is not part of this model.
