# Browser Python sandbox: terminal, input bridge and resilience layer

This project models the core of a browser page that runs Python in
WebAssembly (Pyodide) beside a code editor and a small terminal.

The core of `index.js` consists of:

- **The terminal log.** It holds typed lines: standard output, standard error, system messages, and echoed input. Printing appends one line. The Clear button empties the log.
- **The input bridge.** The JavaScript function `__js_request_input` puts the terminal into the awaiting-input state and stores a resolver. The next Enter hands the raw line to that resolver. The replacement Python `input` is meant to call this function; whether that call reaches it is not modelled (see "Left out").
- **The Enter key (`handleCommand`).** It does one of four things:
  - delivers the line to a waiting program;
  - ignores a blank line;
  - runs a `pip install` pseudo-command through the package manager;
  - evaluates the line as Python.
- **The `pip install` recognizer.** It is the regular expression `^(!)?pip3?\s+install\s+(.+)$` with the `i` flag, applied to the trimmed line, followed by a `trim` of the captured package.
- **The Run button (`runCode`).** It brackets a run with "Session Started" and "Session Finished" lines. Whatever the run does, it restores the "Ready" status and the button.
- **The resilience layer.** It is a table from each intercepted `subprocess`, `os.system` and `multiprocessing` call to the value the program receives and the advisory notes it writes to standard error.
- **The editor's Tab key.** Tab replaces the selection with four spaces.

Modules:

- `JsText` (jstext.dfy). The JavaScript string semantics used here:
  - the single whitespace class shared by `trim` and `\s` (ECMAScript WhiteSpace and LineTerminator);
  - `trim`;
  - the ASCII case folding that a non-unicode `/i` pattern applies to ASCII letters.
- `PipCommand` (pip.dfy). The recognizer, built in three stages and proved equal to the shape the regular expression describes, in both directions. This includes the backtracking of the greedy second `\s+`.
- `Resilience` (resilience.dfy). The interception table.
- `Editor` (editor.dfy). Tab insertion.
- `Terminal` (terminal.dfy). The class `Terminal` holds:
  - the log;
  - the command box, the prompt label, the status text and the run-button flag;
  - the waiting flag and the stored resolver, identified by request number;
  - the answers the resolvers received.

  The runtime's answers are parameters, as the sandbox cannot compute them: whether an install worked, what an evaluation returned, whether a run raised, whether start-up failed. Enter and Run are each split at their `await` into two methods, one for before and one for after. Another method runs the two back to back. Start-up (`Boot`) is one step.

The invariant `Terminal.Valid` guarantees the following:

- The stored resolver always belongs to the latest request.
- Answers go to increasing request numbers.
- A request whose resolver was overwritten by a later request (the ghost set `orphaned`) is never answered.
- While waiting, the latest request is still unanswered.

## Model

| member | source | states |
|---|---|---|
| JsText.SpaceRun | index.js:196 | the length of the maximal whitespace run at the front of a string: everything before it is whitespace, the next character is not |
| JsText.SpaceRunUnique | index.js:196 | any all-whitespace prefix followed by a non-space or the end has exactly that length, so `\s+` taken greedily has one outcome |
| JsText.TrimStart | index.js:177 | the result is a suffix of the input, only whitespace was removed, and it does not start with whitespace |
| JsText.TrimEnd | index.js:177 | the result is a prefix of the input, only whitespace was removed, and it does not end with whitespace |
| JsText.Trim | index.js:177 | `trim` never lengthens its input and yields a string that neither starts nor ends with whitespace |
| JsText.TrimIsSlice | index.js:177 | `trim` keeps one contiguous piece of the input, with only whitespace before and after it |
| JsText.TrimEmptyIffAllSpace | index.js:177-178 | a line trims to the empty string exactly when it is all whitespace (the blank-line test) |
| JsText.TrimOfTrimmed | index.js:177 | `trim` leaves a string alone that neither starts nor ends with whitespace |
| JsText.TrimIdempotent | index.js:177 | trimming twice is trimming once |
| JsText.TrimSkipsLeadingSpace | index.js:200 | whitespace in front of a string does not change its trim |
| JsText.AsciiLower | index.js:196 | lower-cases exactly the upper-case ASCII letters; this is all the `i` flag needs against the ASCII letters of `pip` and `install`, since no non-ASCII character folds onto an ASCII letter (non-ASCII letters do fold among themselves, which these patterns never observe) |
| PipCommand.Group | index.js:196 | the group `(.+)` of `\s+(.+)$`, if present, is non-empty, holds no line terminator and ends the input; it starts with whitespace only as the single character the greedy `\s+` gave back |
| PipCommand.StripPip | index.js:196 | what is left after `(!)?pip3?` ends as the line does |
| PipCommand.StripInstall | index.js:196 | what is left after `\s+install` ends as its input does |
| PipCommand.MatchPip | index.js:196-197 | the captured package group, if the line matches, is non-empty, holds no line terminator and ends with the line's last character; it starts with whitespace only when it is that one character |
| PipCommand.StripPipSound | index.js:196 | what `(!)?pip3?` consumed is an optional `!` followed by `pip` or `pip3` in any case, and the rest follows it |
| PipCommand.StripPipComplete | index.js:196 | an optional `!` followed by `pip` or `pip3` in any case, then whitespace, is consumed with nothing else taken |
| JsText.SpaceRunAfterSpace | index.js:196 | a whitespace prefix adds its length to the whitespace run |
| PipCommand.StripInstallSound | index.js:196 | `\s+install` consumed non-empty whitespace and `install` in any case |
| PipCommand.StripInstallComplete | index.js:196 | non-empty whitespace followed by `install` in any case is consumed, and exactly the rest is left |
| PipCommand.GroupSound | index.js:196 | the group is preceded by non-empty whitespace that together with the group makes up the whole remainder |
| PipCommand.GroupComplete | index.js:196 | whitespace followed by a non-empty rest with no line terminator is matched; the group is that rest less at most some leading whitespace |
| PipCommand.MatchPipSound | index.js:196-197 | every accepted line has the regular expression's shape, with the group as its rest |
| PipCommand.PrefixStagesComplete | index.js:196 | on a line of the install shape, `(!)?pip3?` and then `\s+install` consume exactly the text up to the second run of whitespace |
| PipCommand.MatchPipComplete | index.js:196-197 | every line of that shape is accepted; the group is its rest less at most some leading whitespace |
| PipCommand.ParseInstall | index.js:196-200 | a package is found only on a matching line; on a trimmed line (all the terminal passes) it is the captured group itself and is never empty |
| PipCommand.GroupOfTrimmed | index.js:177-200 | on a trimmed line the captured group is already trimmed |
| PipCommand.ParseInstallSound | index.js:196-200 | a line yields a package only if it has the install shape, and the package is the shape's rest, trimmed |
| PipCommand.ParseInstallComplete | index.js:196-200 | every line of the install shape yields its rest, trimmed, as the package, which is non-empty on a trimmed line |
| Resilience.Note | index.js:94-132 | every advisory note starts with `RESILIENCE NOTE: ` |
| Resilience.Intercept | index.js:94-132 | at most one note per call: one exactly for `subprocess.run`, `Popen`, `os.system` and `Process.start`, none for `check_output`, `call`, `cpu_count`, `Process()`, `join` or the dummy process's methods; captured output is `Mocked Output` for `run` and `check_output`; `cpu_count` is 1 |
| Resilience.StandInsSucceed | index.js:94-122 | every stand-in that reports an exit status reports 0 |
| Resilience.NoteQuotesCommand | index.js:94-122 | the notes of `subprocess.run` and `os.system` contain the command that was not run |
| Resilience.DummyProcessFinished | index.js:98-112 | `Popen` hands out a process with return code 0 whose `wait` and `poll` give 0 and whose `communicate` gives two empty byte strings, all without notes |
| Editor.PressTab | index.js:29-37 | Tab replaces the selection with four spaces, keeps the text outside it in order, and collapses the selection to just after the spaces |
| Terminal.Display | index.js:51 | an input line shows `> ` followed by its message; every other line shows its message as is |
| Terminal.DispatchCases | index.js:176-200 | while waiting, Enter delivers the raw, untrimmed line (even a blank one); otherwise it ignores exactly the all-whitespace lines, installs the non-empty package of a trimmed `pip install` line, and evaluates any other non-empty trimmed line |
| Terminal.FetchLine | index.js:201 | the fetch announcement is a system line that names the package |
| Terminal.InstallReport | index.js:205-207 | an install reports on standard error exactly when it failed, as `Pip Error: ` followed by the error message; it reports a system line exactly when it succeeded, and that line names the package |
| Terminal.EvalReport | index.js:210-217 | an evaluation reports at most one line: its value's text as one standard-output line, nothing exactly for `null` or `undefined`, and the error message on standard error when it failed; never an input or system line |
| Terminal.CommandTranscript | index.js:176-219 | one Enter logs nothing when ignored and the raw value when delivering; otherwise it logs first the input line echoing the command and no other input line, then for an install the fetch line and the install's report line (on standard error exactly when it failed), and for an evaluation exactly the evaluation's report |
| Terminal.CommandTranscriptErrors | index.js:199-218 | a command's report holds exactly one standard-error line when the install or evaluation failed, none otherwise |
| Terminal.EnterTranscript | index.js:176-219 | an Enter logs the raw line when a program waits, nothing for a blank line, and otherwise first the trimmed command; a failure shows as exactly one standard-error line |
| Terminal.CountKindAppend | index.js:44-54 | counting the lines of a kind distributes over appending logs |
| Terminal.RunTranscript | index.js:161-171 | a run logs the start banner first and the finish banner last: three lines with the error message on standard error between them when it raised, and only the two banners otherwise |
| Terminal.Terminal.constructor | index.js:12-20 | a new terminal has an empty log and command box, no runtime, no input bridge, nothing waiting and no resolver |
| Terminal.Terminal.Print | index.js:44-54 | printing appends exactly one line at the end and changes nothing else |
| Terminal.Terminal.Clear | index.js:248 | Clear leaves the log empty and changes nothing else |
| Terminal.Terminal.Type | index.js:13 | editing the command box changes only its text |
| Terminal.BootLines | index.js:136-152 | start-up logs exactly one line, two when highlighting the editor failed: the banner exactly when the step that prints it was reached, and for any failure exactly one standard-error line, `Core Error: ` followed by the message, last |
| Terminal.Terminal.Boot | index.js:57-153 | start-up appends exactly `BootLines`; the runtime exists unless loading it failed; the input bridge exists once set-up reached it, including when hiding the overlay or highlighting the editor failed afterwards |
| Terminal.Terminal.RequestInput | index.js:136-144 | an input request makes the terminal wait, shows its prompt (or `?` for an empty one), sets the status to `Awaiting Input...` and stores a resolver for the new request; a request that was still pending is orphaned and is never answered; the log is unchanged |
| Terminal.Terminal.Submit | index.js:176-201 | Enter acts as Dispatch decides: it logs the lines of that decision; a delivery stops the wait, resets the prompt to `>>>`, sets the status to `Executing...` and answers the latest request with the raw line; a command clears the box; an ignored line changes nothing |
| Terminal.Terminal.AnswerPending | index.js:180-189 | while waiting, the raw line is echoed once and handed to the stored resolver; the box is cleared and the terminal stops waiting |
| Terminal.Terminal.EchoCommand | index.js:192-201 | a command is echoed as one input line, the box is cleared, and an install adds the fetch line |
| Terminal.Terminal.FinishCommand | index.js:202-218 | once the runtime answers, the command's report lines are appended and nothing else changes |
| Terminal.Terminal.HandleCommand | index.js:176-219 | a whole Enter acts as Dispatch decides and logs exactly that decision's transcript. The controls end as `AfterEnter` gives them: a delivery stops the wait, resets the prompt to `>>>`, sets the status to `Executing...` and answers the latest request with the raw line; a command clears the box; an ignored line changes nothing. Without a runtime, the install or evaluation fails |
| Terminal.Terminal.StartRun | index.js:156-161 | without a runtime a run does nothing; otherwise it logs the start banner, sets the status to `Executing...` and disables the button |
| Terminal.Terminal.FinishRun | index.js:163-172 | after a run, the error line if it raised and then the finish banner are logged, the status is `Ready` and the button enabled, whatever the outcome |
| Terminal.Terminal.RunCode | index.js:156-173 | a whole run does nothing without a runtime; otherwise it logs the run transcript and ends with the status `Ready` and the button enabled |

## Left out

- Loading Pyodide and the package manager, `micropip.install` and `runPythonAsync` are calls into the Python runtime. Their outcomes are the parameters `BootResult`, `InstallResult`, `EvalResult` and `RunResult`. A command typed before the runtime exists fails inside the runtime call. `HandleCommand` requires a failed outcome in that case; `FinishCommand` on its own takes whatever outcome it is given.
- Terminal.Terminal.Boot: start-up is one step, although `initPython` awaits three times (index.js:59-68). The model cannot represent the window in which the runtime exists but the resilience layer and the input bridge are not yet installed. During that window Run and Enter already use the runtime.
- Whether the replacement Python `input` reaches the bridge is assumed, not modelled. Read as written, index.js:78 calls the bare Python name `__js_request_input`, but the bridge is installed as a JavaScript global (index.js:136) and is never imported into Python. The bridge is also `async`, and `custom_input` does not await its promise. `RequestInput` models the JavaScript side of the rendezvous only.
- Asynchronous interleaving is not modelled as concurrency. The `await` of Enter and of Run each splits that operation into two methods (`Submit`/`FinishCommand`, `StartRun`/`FinishRun`), and other methods may run between them. index.js does not guard against a second run starting while one is in flight, and the model does not guard it either.
- The stored resolver is modelled by the number of the request it belongs to, and the answers it receives by the `answers` list. Resuming the suspended Python program is the runtime's business.
- The Python stand-in `custom_input` prints its prompt to standard output before asking. That output goes through `Print` like any other runtime output, and is not a separate operation.
- The monkey-patching itself (`builtins.input`, `sys.modules`, `os.system`) is not modelled. Neither are the stand-ins' constants `PIPE`, `STDOUT` and `DEVNULL`, the dummy process's stream objects, or its context-manager methods. The model keeps only the table of results and notes.
- Styling, scrolling, the loading overlay and its timer, and syntax highlighting are presentation only.
- The `askAI` controller calls an external AI service over the network, so it is left out. This includes its lookup of the last error line.
- The initial prompt label and status text come from the page markup, which is not part of this model. They are constructor parameters. The constructor also assumes that the markup starts with an empty log, an empty command box and an enabled Run button.
- `Editor.PressTab` counts characters where the browser counts UTF-16 code units. The two agree except when a selection boundary falls inside a surrogate pair.
- `subprocess.check_output` and `subprocess.call` return their values without writing a note, as in index.js:114-115. The model follows the code here, not a design in which every interception writes exactly one note.
