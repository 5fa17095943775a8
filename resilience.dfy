/** The resilience layer installed into the Python environment at start-up:
    `subprocess`, `os.system` and `multiprocessing` are replaced by stand-ins
    that never raise, return a well-formed "success" value, and in some cases
    write one advisory note to standard error. The table below gives, per
    intercepted call, the value the program gets back and the notes it causes. */
module Resilience {
  import opened Options

  /** The intercepted calls. Arguments matter only where the stand-in prints
      them; they are given as the text Python's formatting produces. */
  datatype Call =
    | SubprocessRun(args: string)     // subprocess.run
    | SubprocessPopen                 // subprocess.Popen
    | SubprocessCheckOutput           // subprocess.check_output
    | SubprocessCall                  // subprocess.call
    | OsSystem(cmd: string)           // os.system
    | CpuCount                        // multiprocessing.cpu_count
    | ProcessCreate                   // multiprocessing.Process(...)
    | ProcessStart                    // Process.start
    | ProcessJoin                     // Process.join
    | DummyCommunicate                // communicate() on the process Popen returns
    | DummyWait                       // wait() on it
    | DummyPoll                       // poll() on it

  /** Python values the stand-ins return; byte strings are given by their
      characters. */
  datatype Value =
    | Int(i: int)
    | Bytes(data: string)
    | BytesPair(first: string, second: string)
    | CompletedProcess(args: string, returncode: int, stdout: string, stderr: string)
    | DummyProcess(returncode: int)
    | ProcessObject
    | PyNone

  datatype Outcome = Outcome(result: Value, notes: seq<string>)

  const NotePrefix := "RESILIENCE NOTE: "

  /** An advisory note as the stand-ins write it. */
  function Note(text: string): (n: string)
    ensures |NotePrefix| <= |n| && n[..|NotePrefix|] == NotePrefix
  {
    NotePrefix + text
  }
  const MockedOutput := "Mocked Output"
  const PopenNote := "'subprocess.Popen' prevented. Spawning dummy process."
  const StartNote := "Multiprocessing start() ignored in browser."

  /** The calls whose stand-in announces itself on standard error. */
  predicate Advises(c: Call) {
    c.SubprocessRun? || c.SubprocessPopen? || c.OsSystem? || c.ProcessStart?
  }

  /** The calls whose result, in the real library, carries or is an exit
      status. */
  predicate ReportsStatus(c: Call) {
    c.SubprocessRun? || c.SubprocessPopen? || c.SubprocessCall? || c.OsSystem? ||
    c.DummyWait? || c.DummyPoll?
  }

  /** The exit status carried by a value, if it carries one. */
  function ExitStatus(v: Value): Option<int> {
    match v
    case Int(i) => Some(i)
    case CompletedProcess(_, rc, _, _) => Some(rc)
    case DummyProcess(rc) => Some(rc)
    case _ => None
  }

  /** The standard output a program captures from a value, if the value
      carries one. */
  function CapturedOutput(v: Value): Option<string> {
    match v
    case Bytes(data) => Some(data)
    case CompletedProcess(_, _, out, _) => Some(out)
    case _ => None
  }

  /** What an intercepted call returns and which advisory notes it writes.
      A program that captures the output of a subprocess, by either call,
      reads the same fixed text; it is told there is a single processor. */
  function Intercept(c: Call): (o: Outcome)
    ensures |o.notes| <= 1
    ensures |o.notes| == 1 <==> Advises(c)
    ensures o.notes != [] ==> |NotePrefix| <= |o.notes[0]| && o.notes[0][..|NotePrefix|] == NotePrefix
    ensures c.SubprocessRun? || c.SubprocessCheckOutput? ==> CapturedOutput(o.result) == Some(MockedOutput)
    ensures c.CpuCount? ==> o.result == Int(1)
  {
    match c
    case SubprocessRun(args) =>
      Outcome(CompletedProcess(args, 0, MockedOutput, ""),
              [Note("Intercepted blocked call 'subprocess.run(" + args + ")'.")])
    case SubprocessPopen =>
      Outcome(DummyProcess(0),
              [Note(PopenNote)])
    case SubprocessCheckOutput => Outcome(Bytes(MockedOutput), [])
    case SubprocessCall => Outcome(Int(0), [])
    case OsSystem(cmd) =>
      Outcome(Int(0),
              [Note("'os.system' (" + cmd + ") intercepted. Terminal simulation only.")])
    case CpuCount => Outcome(Int(1), [])
    case ProcessCreate => Outcome(ProcessObject, [])
    case ProcessStart =>
      Outcome(PyNone, [Note(StartNote)])
    case ProcessJoin => Outcome(PyNone, [])
    case DummyCommunicate => Outcome(BytesPair("", ""), [])
    case DummyWait => Outcome(Int(0), [])
    case DummyPoll => Outcome(Int(0), [])
  }

  /** No stand-in fails: every call whose real counterpart reports an exit
      status reports 0, the status of success. */
  lemma StandInsSucceed(c: Call)
    requires ReportsStatus(c)
    ensures ExitStatus(Intercept(c).result) == Some(0)
  {
  }

  /** The notes of `subprocess.run` and `os.system` quote the command that did
      not run, so the user can see what was skipped: it occurs in the note at
      position `at`. */
  lemma NoteQuotesCommand(c: Call) returns (at: nat)
    requires c.SubprocessRun? || c.OsSystem?
    ensures var quoted := if c.SubprocessRun? then c.args else c.cmd;
      at + |quoted| <= |Intercept(c).notes[0]| && Intercept(c).notes[0][at..at + |quoted|] == quoted
  {
    var note := Intercept(c).notes[0];
    if c.SubprocessRun? {
      var head := NotePrefix + "Intercepted blocked call 'subprocess.run(";
      assert note == head + c.args + ")'.";
      at := |head|;
      assert note[at..at + |c.args|] == c.args;
    } else {
      var head := NotePrefix + "'os.system' (";
      assert note == head + c.cmd + ") intercepted. Terminal simulation only.";
      at := |head|;
      assert note[at..at + |c.cmd|] == c.cmd;
    }
  }

  /** The process `subprocess.Popen` hands out behaves as one that already
      finished successfully with no output: waiting and polling report 0 and
      `communicate` yields two empty byte strings, all without notes. */
  lemma DummyProcessFinished()
    ensures Intercept(SubprocessPopen).result == DummyProcess(0)
    ensures Intercept(DummyWait) == Outcome(Int(0), []) && Intercept(DummyPoll) == Outcome(Int(0), [])
    ensures Intercept(DummyCommunicate) == Outcome(BytesPair("", ""), [])
  {
  }
}
