/** The simulated terminal of the sandbox: its log of typed lines, the command
    box, the prompt label, the status text and the run button, the
    rendezvous through which a running Python program waits for a line of
    input, the command dispatcher behind the Enter key, and the lifecycle of
    a run started from the Run button.

    The runtime's answers (whether a package installed, what an evaluation
    returned, whether a run raised) are parameters. The page's script awaits
    them asynchronously; a command and a run are each split here at their await
    into a method for the part before and one for the part after, so that
    input requests and program output can be interleaved between the two.
    Methods that run both halves back to back model the case where nothing
    happens in between. */
module Terminal {
  import opened Options
  import opened JsText
  import opened PipCommand

  /** The fixed texts the terminal writes. */
  const InputMarker := "> "
  const DefaultPrompt := ">>>"
  const UnnamedPrompt := "?"
  const AwaitingStatus := "Awaiting Input..."
  const ExecutingStatus := "Executing..."
  const ReadyStatus := "Ready"
  const BannerText := "Unstoppable Resilience Layer Active."
  const BootErrorPrefix := "Core Error: "
  const PipErrorPrefix := "Pip Error: "
  const FetchPrefix := "Fetching "
  const FetchSuffix := " from PyPI via WASM..."
  const InstalledPrefix := "Package "
  const InstalledSuffix := " is now available."
  const StartedText := "--- Session Started ---"
  const FinishedText := "--- Session Finished ---"

  datatype Kind = Stdout | Stderr | System | Input

  /** One line of the terminal log: a `div` and the style its kind selects. */
  datatype Line = Line(kind: Kind, text: string)

  /** The text a line shows: input lines carry a `> ` marker, the others show
      their message as it is. */
  function Display(l: Line): (d: string)
    ensures |d| == |l.text| + (if l.kind == Input then |InputMarker| else 0)
    ensures d[|d| - |l.text|..] == l.text
    ensures l.kind == Input ==> d[..|InputMarker|] == InputMarker
  {
    if l.kind == Input then InputMarker + l.text else l.text
  }

  /** What Enter does with the command box. */
  datatype Action =
    | Ignore                                 // blank line and no program waiting
    | Deliver(value: string)                 // the raw line goes to the waiting program
    | Install(command: string, pkg: string)  // a `pip install` line
    | Eval(command: string)                  // anything else is Python to evaluate

  /** The decision Enter makes, from whether a program waits for input and
      the raw content of the command box. */
  function Dispatch(waiting: bool, raw: string): Action {
    var cmd := Trim(raw);
    if cmd == [] && !waiting then Ignore
    else if waiting then Deliver(raw)
    else
      match ParseInstall(cmd)
      case Some(pkg) => Install(cmd, pkg)
      case None => Eval(cmd)
  }

  /** The four outcomes of Enter: a waiting program gets the raw line, even a
      blank one; otherwise a line that is all whitespace is ignored, a `pip
      install` line with its non-empty package is installed, and any other
      line is evaluated, trimmed. */
  lemma DispatchCases(waiting: bool, raw: string)
    ensures var a := Dispatch(waiting, raw);
      (waiting ==> a == Deliver(raw)) &&
      (!waiting ==> (a == Ignore <==> AllSpace(raw))) &&
      (a.Install? ==> !waiting && a.command == Trim(raw) && ParseInstall(a.command) == Some(a.pkg) && a.pkg != []) &&
      (a.Eval? ==> !waiting && a.command == Trim(raw) && a.command != [] && ParseInstall(a.command) == None)
  {
    TrimEmptyIffAllSpace(raw);
  }

  datatype InstallResult = Installed | InstallFailed(message: string)

  /** What evaluating a command yields: a value, `null` or `undefined`, or an
      error. `text` is the value converted with `String`. */
  datatype EvalResult = Value(text: string) | NullOrUndefined | EvalFailed(message: string)

  datatype RunResult = Completed | RunFailed(message: string)

  datatype BootResult =
    | Booted                          // runtime, micropip and resilience layer all loaded
    | LoadFailed(message: string)     // the runtime itself did not load
    | SetupFailed(message: string)    // the runtime loaded, a later set-up step failed
    | OverlayFailed(message: string)  // the bridge is installed, hiding the loading overlay failed
    | HighlightFailed(message: string) // the banner is shown, highlighting the editor failed

  /** The start-up outcomes after which the input bridge is installed. */
  predicate BridgeInstalled(r: BootResult) {
    r.Booted? || r.OverlayFailed? || r.HighlightFailed?
  }

  const BannerLine := Line(System, BannerText)

  /** The lines start-up logs: the banner whenever the step that prints it is
      reached, and any failure last, as one standard-error line. */
  function BootLines(r: BootResult): (lines: seq<Line>)
    ensures |lines| == if r.HighlightFailed? then 2 else 1
    ensures (BannerLine in lines) <==> r.Booted? || r.HighlightFailed?
    ensures CountKind(lines, Stderr) == if r.Booted? then 0 else 1
    ensures !r.Booted? ==> lines[|lines| - 1] == Line(Stderr, BootErrorPrefix + r.message)
  {
    match r
    case Booted => [BannerLine]
    case HighlightFailed(msg) =>
      CountKindAppend([BannerLine], [Line(Stderr, BootErrorPrefix + msg)], Stderr);
      [BannerLine, Line(Stderr, BootErrorPrefix + msg)]
    case _ => [Line(Stderr, BootErrorPrefix + r.message)]
  }

  /** The system line announcing a package fetch; it names the package. */
  function FetchLine(pkg: string): (l: Line)
    ensures l.kind == System
    ensures |FetchPrefix| + |pkg| <= |l.text| && l.text[|FetchPrefix|..|FetchPrefix| + |pkg|] == pkg
  {
    Line(System, FetchPrefix + pkg + FetchSuffix)
  }

  /** The line an install reports once the package manager has answered:
      a system line naming the package, or the error message behind the
      pip error prefix on standard error. */
  function InstallReport(pkg: string, r: InstallResult): (l: Line)
    ensures l.kind == Stderr <==> r.InstallFailed?
    ensures l.kind == System <==> r.Installed?
    ensures r.Installed? ==>
      |InstalledPrefix| + |pkg| <= |l.text| && l.text[|InstalledPrefix|..|InstalledPrefix| + |pkg|] == pkg
    ensures r.InstallFailed? ==> l.text == PipErrorPrefix + r.message
  {
    match r
    case Installed => Line(System, InstalledPrefix + pkg + InstalledSuffix)
    case InstallFailed(msg) => Line(Stderr, PipErrorPrefix + msg)
  }

  /** The lines an evaluation reports once the runtime has answered: the value
      on standard output unless it is `null` or `undefined`, the error message
      on standard error if it failed. */
  function EvalReport(r: EvalResult): (lines: seq<Line>)
    ensures |lines| <= 1
    ensures lines == [] <==> r.NullOrUndefined?
    ensures r.Value? ==> lines == [Line(Stdout, r.text)]
    ensures r.EvalFailed? ==> lines == [Line(Stderr, r.message)]
    ensures forall i :: 0 <= i < |lines| ==> lines[i].kind != Input && lines[i].kind != System
  {
    match r
    case Value(text) => [Line(Stdout, text)]
    case NullOrUndefined => []
    case EvalFailed(msg) => [Line(Stderr, msg)]
  }

  /** The lines Enter appends before the runtime is consulted. */
  function SubmitLines(a: Action): seq<Line> {
    match a
    case Ignore => []
    case Deliver(v) => [Line(Input, v)]
    case Install(cmd, pkg) => [Line(Input, cmd)] + [FetchLine(pkg)]
    case Eval(cmd) => [Line(Input, cmd)]
  }

  /** The lines Enter appends once the runtime has answered. */
  function CommandReport(a: Action, ir: InstallResult, er: EvalResult): seq<Line> {
    match a
    case Install(_, pkg) => [InstallReport(pkg, ir)]
    case Eval(_) => EvalReport(er)
    case _ => []
  }

  /** Everything one Enter appends when nothing else prints while the runtime
      works on it. */
  function CommandTranscript(a: Action, ir: InstallResult, er: EvalResult): (lines: seq<Line>)
    ensures a.Ignore? <==> lines == []
    ensures a.Deliver? ==> lines == [Line(Input, a.value)]
    ensures !a.Ignore? ==> lines[0].kind == Input
    ensures a.Install? || a.Eval? ==> lines[0] == Line(Input, a.command)
    ensures forall i :: 1 <= i < |lines| ==> lines[i].kind != Input
    ensures a.Install? ==> |lines| == 3 && lines[1] == FetchLine(a.pkg) && (lines[2].kind == Stderr <==> ir.InstallFailed?)
    ensures a.Install? ==> lines[2] == InstallReport(a.pkg, ir)
    ensures a.Eval? ==> 1 <= |lines| <= 2 && (|lines| == 1 <==> er.NullOrUndefined?)
    ensures a.Eval? ==> lines[1..] == EvalReport(er)
  {
    SubmitLines(a) + CommandReport(a, ir, er)
  }

  /** Handling a command reports a failure as exactly one standard-error
      line, and reports nothing on standard error when it succeeds. */
  lemma {:induction false} CommandTranscriptErrors(a: Action, ir: InstallResult, er: EvalResult)
    ensures CountKind(CommandTranscript(a, ir, er), Stderr) ==
            (if (a.Install? && ir.InstallFailed?) || (a.Eval? && er.EvalFailed?) then 1 else 0)
  {
    var lines := CommandTranscript(a, ir, er);
    match a
    case Ignore =>
    case Deliver(_) =>
      assert lines[1..] == [];
    case Install(_, pkg) =>
      assert lines == [lines[0]] + [lines[1]] + [lines[2]];
      CountKindAppend([lines[0]] + [lines[1]], [lines[2]], Stderr);
      CountKindAppend([lines[0]], [lines[1]], Stderr);
    case Eval(_) =>
      if |lines| == 2 {
        assert lines == [lines[0]] + [lines[1]];
        CountKindAppend([lines[0]], [lines[1]], Stderr);
      } else {
        assert lines[1..] == [];
      }
  }

  /** One Enter, seen from the raw command box: a waiting program receives the
      line untrimmed (even when blank) and it is echoed once; otherwise a
      blank line does nothing, and any other line is echoed trimmed, first,
      as the only input line, followed by what handling it reports; a failure
      is reported as exactly one standard-error line. */
  lemma {:induction false} EnterTranscript(waiting: bool, raw: string, ir: InstallResult, er: EvalResult)
    ensures var lines := CommandTranscript(Dispatch(waiting, raw), ir, er);
      (waiting ==> lines == [Line(Input, raw)]) &&
      (!waiting && AllSpace(raw) ==> lines == []) &&
      (!waiting && !AllSpace(raw) ==> lines != [] && lines[0] == Line(Input, Trim(raw))) &&
      (!waiting ==> (CountKind(lines, Stderr) == 1 <==>
                       (Dispatch(waiting, raw).Install? && ir.InstallFailed?) ||
                       (Dispatch(waiting, raw).Eval? && er.EvalFailed?)))
  {
    DispatchCases(waiting, raw);
    CommandTranscriptErrors(Dispatch(waiting, raw), ir, er);
  }

  /** Number of lines of a given kind. */
  function CountKind(lines: seq<Line>, k: Kind): (n: nat)
    ensures n <= |lines|
  {
    if lines == [] then 0 else (if lines[0].kind == k then 1 else 0) + CountKind(lines[1..], k)
  }

  lemma {:induction false} CountKindAppend(xs: seq<Line>, ys: seq<Line>, k: Kind)
    ensures CountKind(xs + ys, k) == CountKind(xs, k) + CountKind(ys, k)
  {
    if xs == [] {
      assert xs + ys == ys;
    } else {
      assert (xs + ys)[1..] == xs[1..] + ys;
      CountKindAppend(xs[1..], ys, k);
    }
  }

  const StartedLine := Line(System, StartedText)
  const FinishedLine := Line(System, FinishedText)

  /** The lines a run appends after it is started. */
  function RunReport(r: RunResult): seq<Line> {
    match r
    case Completed => [FinishedLine]
    case RunFailed(msg) => [Line(Stderr, msg), FinishedLine]
  }

  /** Everything a run appends when nothing prints while it runs: the start
      banner first, the finish banner last, and between them exactly one
      standard-error line when the run raised, none otherwise. */
  function RunTranscript(r: RunResult): (lines: seq<Line>)
    ensures |lines| == if r.RunFailed? then 3 else 2
    ensures lines[0] == StartedLine && lines[|lines| - 1] == FinishedLine
    ensures r.RunFailed? ==> lines[1] == Line(Stderr, r.message)
    ensures CountKind(lines, Stderr) == (if r.RunFailed? then 1 else 0)
  {
    var lines := [StartedLine] + RunReport(r);
    CountKindAppend([StartedLine], RunReport(r), Stderr);
    CountKindAppend([Line(Stderr, if r.RunFailed? then r.message else "")], [FinishedLine], Stderr);
    lines
  }

  /** A value handed to the resolver of input request `request`. */
  datatype Answer = Answer(request: nat, value: string)

  /** The terminal's state other than its log. */
  datatype Controls = Controls(
    input: string, promptLabel: string, status: string, runDisabled: bool,
    runtimeLoaded: bool, bridgeReady: bool,
    waiting: bool, resolver: Option<nat>, requests: nat, answers: seq<Answer>)

  /** The controls after Enter took action `a`: an ignored line changes
      nothing; a delivery empties the box, stops the wait, resets the prompt,
      shows that the program runs again and answers the stored resolver with
      the raw line; a command only empties the box. */
  ghost function AfterEnter(c: Controls, a: Action): Controls
    requires a.Deliver? ==> c.resolver.Some?
  {
    match a
    case Ignore => c
    case Deliver(v) =>
      c.(input := "", waiting := false, promptLabel := DefaultPrompt, status := ExecutingStatus,
         answers := c.answers + [Answer(c.resolver.value, v)])
    case _ => c.(input := "")
  }

  class Terminal {
    /** The log shown in the terminal pane, oldest line first. */
    var log: seq<Line>
    /** The text in the command box. */
    var input: string
    var promptLabel: string
    var status: string
    var runDisabled: bool
    /** The Python runtime object exists. */
    var runtimeLoaded: bool
    /** The input bridge the Python `input` calls is installed. */
    var bridgeReady: bool
    /** A program is suspended in `input` and the next Enter answers it. */
    var waiting: bool
    /** The input request whose resolver is stored, if any; request `k` is the
        `k`-th request made. */
    var resolver: Option<nat>
    var requests: nat
    /** The values resolvers were called with, in order. */
    var answers: seq<Answer>
    /** Requests whose resolver was overwritten by a later request before
        anything answered them. */
    ghost var orphaned: set<nat>

    ghost function State(): Controls
      reads this
    {
      Controls(input, promptLabel, status, runDisabled, runtimeLoaded, bridgeReady,
               waiting, resolver, requests, answers)
    }

    /** The stored resolver always belongs to the latest request; a waiting
        terminal has one; every request is answered at most once and in
        order; no orphaned request is ever answered; while waiting, the
        latest request is still unanswered. */
    ghost predicate Valid()
      reads this
    {
      (resolver.None? <==> requests == 0) &&
      (resolver.Some? ==> resolver.value == requests - 1) &&
      (waiting ==> resolver.Some?) &&
      (forall i, j :: 0 <= i < j < |answers| ==> answers[i].request < answers[j].request) &&
      (forall i :: 0 <= i < |answers| ==>
         answers[i].request < requests && answers[i].request !in orphaned) &&
      (forall k :: k in orphaned ==> k < requests) &&
      (waiting ==> (forall i :: 0 <= i < |answers| ==> answers[i].request < requests - 1)
                   && requests - 1 !in orphaned) &&
      (bridgeReady ==> runtimeLoaded)
    }

    /** A freshly loaded page: an empty log and an empty command box. The
        initial prompt label and status text come from the page markup. */
    constructor (prompt0: string, status0: string)
      ensures Valid()
      ensures log == [] && input == "" && promptLabel == prompt0 && status == status0
      ensures !runDisabled && !runtimeLoaded && !bridgeReady && !waiting
      ensures resolver == None && requests == 0 && answers == [] && orphaned == {}
    {
      log, input, promptLabel, status := [], "", prompt0, status0;
      runDisabled, runtimeLoaded, bridgeReady, waiting := false, false, false, false;
      resolver, requests, answers := None, 0, [];
      orphaned := {};
    }

    /** Appends one line to the log and changes nothing else. Also the target
        of the runtime's standard output (kind Stdout) and standard error
        (kind Stderr), one call per flushed line. */
    method Print(msg: string, kind: Kind)
      requires Valid()
      modifies this
      ensures Valid()
      ensures log == old(log) + [Line(kind, msg)]
      ensures State() == old(State()) && orphaned == old(orphaned)
    {
      log := log + [Line(kind, msg)];
    }

    /** The Clear button: the log becomes empty, whatever it held. */
    method Clear()
      requires Valid()
      modifies this
      ensures Valid()
      ensures log == []
      ensures State() == old(State()) && orphaned == old(orphaned)
    {
      log := [];
    }

    /** The user edits the command box. */
    method Type(text: string)
      requires Valid()
      modifies this
      ensures Valid()
      ensures input == text && log == old(log) && orphaned == old(orphaned)
      ensures State() == old(State()).(input := text)
    {
      input := text;
    }

    /** Start-up: load the runtime, the package manager and the resilience
        layer, install the input bridge, hide the loading overlay, announce
        the layer and highlight the editor; a failure stops start-up and is
        reported once, on standard error. */
    method Boot(r: BootResult)
      requires Valid()
      modifies this
      ensures Valid()
      ensures log == old(log) + BootLines(r)
      ensures runtimeLoaded == (old(runtimeLoaded) || !r.LoadFailed?)
      ensures bridgeReady == (old(bridgeReady) || BridgeInstalled(r))
      ensures State() == old(State()).(runtimeLoaded := runtimeLoaded, bridgeReady := bridgeReady)
      ensures orphaned == old(orphaned)
    {
      var lines: seq<Line>;
      match r {
        case LoadFailed(msg) =>
          lines := [Line(Stderr, BootErrorPrefix + msg)];
        case SetupFailed(msg) =>
          runtimeLoaded := true;
          lines := [Line(Stderr, BootErrorPrefix + msg)];
        case OverlayFailed(msg) =>
          runtimeLoaded, bridgeReady := true, true;
          lines := [Line(Stderr, BootErrorPrefix + msg)];
        case HighlightFailed(msg) =>
          runtimeLoaded, bridgeReady := true, true;
          lines := [BannerLine, Line(Stderr, BootErrorPrefix + msg)];
        case Booted =>
          runtimeLoaded, bridgeReady := true, true;
          lines := [BannerLine];
      }
      assert lines == BootLines(r);
      log := log + lines;
    }

    /** The input bridge `__js_request_input(prompt)`, which the replacement
        Python `input` is meant to call. It returns the number of the new
        request, to be answered by a later Enter. A request made while another is pending replaces that
        one's resolver: the earlier request is never answered. */
    method RequestInput(prompt: string) returns (id: nat)
      requires Valid() && bridgeReady
      modifies this
      ensures Valid()
      ensures id == old(requests) && requests == id + 1 && resolver == Some(id)
      ensures waiting && status == AwaitingStatus
      ensures promptLabel == if prompt == "" then UnnamedPrompt else prompt
      ensures orphaned == old(orphaned) + (if old(waiting) then {old(resolver).value} else {})
      ensures log == old(log)
      ensures input == old(input) && runDisabled == old(runDisabled) && answers == old(answers)
      ensures runtimeLoaded == old(runtimeLoaded) && bridgeReady == old(bridgeReady)
    {
      if waiting {
        orphaned := orphaned + {resolver.value};
      }
      waiting := true;
      promptLabel := if prompt == "" then UnnamedPrompt else prompt;
      status := AwaitingStatus;
      id := requests;
      requests := requests + 1;
      resolver := Some(id);
    }

    /** Enter in the command box, up to the point where the runtime is asked:
        answers a waiting program, ignores a blank line, or echoes the
        trimmed command and, for an install, announces the fetch. */
    method Submit() returns (a: Action)
      requires Valid()
      modifies this
      ensures Valid()
      ensures a == Dispatch(old(waiting), old(input))
      ensures log == old(log) + SubmitLines(a)
      ensures a.Ignore? ==> State() == old(State())
      ensures a.Deliver? ==>
        State() == old(State()).(input := "", waiting := false, promptLabel := DefaultPrompt,
                                 status := ExecutingStatus,
                                 answers := old(answers) + [Answer(old(resolver).value, a.value)])
      ensures a.Install? || a.Eval? ==> State() == old(State()).(input := "")
      ensures orphaned == old(orphaned)
      ensures State() == AfterEnter(old(State()), a)
    {
      var cmd := Trim(input);
      TrimEmptyIffAllSpace(input);
      if cmd == [] && !waiting {
        a := Ignore;
        return;
      }
      if waiting {
        a := AnswerPending();
        return;
      }
      a := EchoCommand(cmd, ParseInstall(cmd));
    }

    /** The waiting branch of Enter: the raw box content is echoed and handed
        to the stored resolver, and the terminal stops waiting. */
    method AnswerPending() returns (a: Action)
      requires Valid() && waiting
      modifies this
      ensures Valid()
      ensures a == Deliver(old(input))
      ensures log == old(log) + [Line(Input, old(input))]
      ensures State() == old(State()).(input := "", waiting := false, promptLabel := DefaultPrompt,
                                       status := ExecutingStatus,
                                       answers := old(answers) + [Answer(old(resolver).value, old(input))])
      ensures orphaned == old(orphaned)
    {
      var val := input;
      Print(val, Input);
      input := "";
      waiting := false;
      promptLabel := DefaultPrompt;
      status := ExecutingStatus;
      answers := answers + [Answer(resolver.value, val)];
      a := Deliver(val);
    }

    /** The command branch of Enter for a non-blank trimmed command, given
        what the `pip install` recognizer made of it: echo the command, clear
        the box, and either announce an install or leave it to be evaluated. */
    method EchoCommand(cmd: string, parsed: Option<string>) returns (a: Action)
      requires Valid()
      modifies this
      ensures Valid()
      ensures a == if parsed.Some? then Install(cmd, parsed.value) else Eval(cmd)
      ensures log == old(log) + SubmitLines(a)
      ensures State() == old(State()).(input := "")
      ensures orphaned == old(orphaned)
    {
      Print(cmd, Input);
      input := "";
      match parsed
      case Some(pkg) =>
        Print(FetchLine(pkg).text, System);
        a := Install(cmd, pkg);
        assert log == old(log) + [Line(Input, cmd)] + [FetchLine(pkg)];
      case None =>
        a := Eval(cmd);
        assert log == old(log) + SubmitLines(a);
    }

    /** The rest of Enter, once the runtime has answered the install or the
        evaluation that `Submit` started: report the outcome. */
    method FinishCommand(a: Action, ir: InstallResult, er: EvalResult)
      requires Valid()
      modifies this
      ensures Valid()
      ensures log == old(log) + CommandReport(a, ir, er)
      ensures State() == old(State()) && orphaned == old(orphaned)
    {
      match a
      case Install(_, pkg) =>
        match ir {
          case Installed => Print(InstallReport(pkg, ir).text, System);
          case InstallFailed(msg) => Print(PipErrorPrefix + msg, Stderr);
        }
      case Eval(_) =>
        match er {
          case Value(text) => Print(text, Stdout);
          case NullOrUndefined =>
          case EvalFailed(msg) => Print(msg, Stderr);
        }
      case _ =>
    }

    /** A whole Enter when nothing else happens while the runtime works.
        Without a runtime, the install or evaluation call itself fails, so
        the runtime's answer is then a failure. */
    method HandleCommand(ir: InstallResult, er: EvalResult) returns (a: Action)
      requires Valid()
      requires !runtimeLoaded ==> ir.InstallFailed? && er.EvalFailed?
      modifies this
      ensures Valid()
      ensures a == Dispatch(old(waiting), old(input))
      ensures log == old(log) + CommandTranscript(a, ir, er)
      ensures a.Deliver? ==> old(resolver).Some?
      ensures State() == AfterEnter(old(State()), a)
      ensures orphaned == old(orphaned)
    {
      ghost var before := State();
      a := Submit();
      ghost var echoed, submitted := log, State();
      assert submitted == AfterEnter(before, a);
      FinishCommand(a, ir, er);
      assert State() == submitted;
      ghost var s, c := SubmitLines(a), CommandReport(a, ir, er);
      assert echoed == old(log) + s && log == echoed + c;
      assert log == old(log) + (s + c);
      assert State() == AfterEnter(before, a);
    }

    /** The Run button (or Ctrl/Cmd+Enter), up to the point where the editor
        text is handed to the runtime. Does nothing without a runtime. */
    method StartRun() returns (started: bool)
      requires Valid()
      modifies this
      ensures Valid()
      ensures started == runtimeLoaded
      ensures !started ==> log == old(log) && State() == old(State())
      ensures started ==> (log == old(log) + [StartedLine] &&
        State() == old(State()).(status := ExecutingStatus, runDisabled := true))
      ensures orphaned == old(orphaned)
    {
      if !runtimeLoaded {
        started := false;
        return;
      }
      started := true;
      status := ExecutingStatus;
      runDisabled := true;
      Print(StartedText, System);
    }

    /** The rest of a run, once the runtime has finished with it: whatever
        the outcome, the status returns to "Ready" and the button is enabled. */
    method FinishRun(r: RunResult)
      requires Valid()
      modifies this
      ensures Valid()
      ensures log == old(log) + RunReport(r)
      ensures State() == old(State()).(status := ReadyStatus, runDisabled := false)
      ensures orphaned == old(orphaned)
    {
      if r.RunFailed? {
        Print(r.message, Stderr);
      }
      status := ReadyStatus;
      runDisabled := false;
      Print(FinishedText, System);
    }

    /** A whole run when nothing prints while it runs. */
    method RunCode(r: RunResult) returns (started: bool)
      requires Valid()
      modifies this
      ensures Valid()
      ensures started == old(runtimeLoaded)
      ensures !started ==> log == old(log) && State() == old(State())
      ensures started ==> (log == old(log) + RunTranscript(r) &&
        State() == old(State()).(status := ReadyStatus, runDisabled := false))
      ensures orphaned == old(orphaned)
    {
      started := StartRun();
      if started {
        FinishRun(r);
      }
    }
  }
}
