/**
 * `Interpreter::execute_python` and the process-wide Python runtime it
 * drives: `Py_IsInitialized`/`Py_Initialize`/`Py_FinalizeEx`, the shared
 * `__main__` dictionary, and `sys.stdout`/`sys.stderr`, which every call
 * points at a fresh `io.StringIO` and never points back.
 *
 * Python itself is an oracle: given the `__main__` namespace and a program
 * it says what the program wrote, whether it raised (and the traceback
 * `PyErr_Print` then writes) and what the namespace holds afterwards.
 */
module PythonExecutor {
  import opened Cpp

  /** The `__main__` dictionary, abstractly: names bound to (the repr of) values. */
  type Namespace = map<string, string>

  /** `__main__`'s dictionary as `Py_Initialize` creates it. */
  const FreshMain: Namespace := map[]

  /**
   * Where `sys.stdout`/`sys.stderr` point: the console, the StringIO made
   * by call number `id`, or any other file object a program binds.
   */
  datatype Stream = Console | Capture(id: nat) | Elsewhere

  /** What a program did to one of `sys.stdout`/`sys.stderr`: left it alone, or bound it to something. */
  datatype Binding = Kept | Rebound(to: Stream)

  /** Where a stream points after a program that did `b` to it, when it pointed at `current`. */
  function Bound(b: Binding, current: Stream): Stream
  {
    if b.Rebound? then b.to else current
  }

  /**
   * What running one program (`PyRun_String(..., Py_file_input, d, d)`) does:
   * `written` is everything that reached the call's StringIO while it ran,
   * in order; `stdout`/`stderr` say whether it rebound `sys.stdout` or
   * `sys.stderr`, and to what.
   */
  datatype ScriptRun = ScriptRun(
    written: string, raised: bool, traceback: string, after: Namespace,
    stdout: Binding, stderr: Binding)

  /** The steps of the C API call that can fail structurally. */
  datatype Setup = Setup(modulesImported: bool, stringIOCreated: bool, valueRetrieved: bool)

  /** The process-wide runtime, as a value. `initializations` counts `Py_Initialize` calls. */
  datatype RuntimeState = RuntimeState(
    initialized: bool, main: Namespace, stdout: Stream, stderr: Stream,
    initializations: nat, sinks: nat)

  /** The runtime when the process starts. */
  const Start := RuntimeState(false, FreshMain, Console, Console, 0, 0)

  const ImportFailedText := "Error: Failed to import sys or io modules.\n"
  const StringIOFailedText := "Error: Failed to create StringIO.\n"
  const RetrieveFailedText := "Error: Could not retrieve output.\n"

  /** Initialize the runtime unless it is already live. */
  function Initialized(s: RuntimeState): (t: RuntimeState)
  {
    if s.initialized then s
    else RuntimeState(true, FreshMain, Console, Console, s.initializations + 1, s.sinks)
  }

  /** Finalize the runtime when it is live; otherwise nothing happens. */
  function Finalized(s: RuntimeState): (t: RuntimeState)
  {
    if s.initialized then s.(initialized := false, main := FreshMain, stdout := Console, stderr := Console)
    else s
  }

  /**
   * The text the StringIO `sink` holds after the program ran: what reached
   * it, then the traceback `PyErr_Print` writes to `sys.stderr` when the
   * program raised and `sys.stderr` still points at `sink`.
   */
  function Captured(run: ScriptRun, sink: Stream): string
  {
    run.written + (if run.raised && Bound(run.stderr, sink) == sink then run.traceback else "")
  }

  /** The new runtime and the returned text of one `execute_python(command)`. */
  function Run(s: RuntimeState, command: string, setup: Setup, python: (Namespace, string) -> ScriptRun): (RuntimeState, string)
  {
    var s1 := Initialized(s);
    if !setup.modulesImported then (s1, ImportFailedText)
    else if !setup.stringIOCreated then (s1, StringIOFailedText)
    else
      var sink := Capture(s1.sinks);
      var run := python(s1.main, CString(command));
      (s1.(main := run.after, stdout := Bound(run.stdout, sink), stderr := Bound(run.stderr, sink),
           sinks := s1.sinks + 1),
       if setup.valueRetrieved then CString(Captured(run, sink)) else RetrieveFailedText)
  }

  /** One call of `execute_python`, with everything the native side does in it. */
  datatype Call = Call(command: string, setup: Setup, python: (Namespace, string) -> ScriptRun)

  /** The runtime after a sequence of calls with no finalization between them. */
  function RunAll(s: RuntimeState, calls: seq<Call>): RuntimeState
    decreases |calls|
  {
    if calls == [] then s
    else RunAll(Run(s, calls[0].command, calls[0].setup, calls[0].python).0, calls[1..])
  }

  /**
   * Initialization is lazy and idempotent: however many calls run, the
   * runtime is initialized once, by the first of them when it was not
   * already.
   */
  lemma {:induction false} InitializesOnce(s: RuntimeState, calls: seq<Call>)
    ensures RunAll(s, calls).initialized == (s.initialized || calls != [])
    ensures RunAll(s, calls).initializations
      == s.initializations + (if !s.initialized && calls != [] then 1 else 0)
    decreases |calls|
  {
    if calls != [] {
      InitializesOnce(Run(s, calls[0].command, calls[0].setup, calls[0].python).0, calls[1..]);
    }
  }

  /**
   * `__main__`'s dictionary is both globals and locals of every call: what
   * one call defines is what the next call's program runs against.
   */
  lemma DefinitionsPersist(s: RuntimeState, first: Call, second: Call)
    requires first.setup.modulesImported && first.setup.stringIOCreated
    requires second.setup.modulesImported && second.setup.stringIOCreated && second.setup.valueRetrieved
    ensures var main := if s.initialized then s.main else FreshMain;
      var s1 := Run(s, first.command, first.setup, first.python).0;
      Run(s1, second.command, second.setup, second.python).1
        == CString(Captured(second.python(first.python(main, CString(first.command)).after, CString(second.command)),
                            Capture(s.sinks + 1)))
  {
  }

  /**
   * A program that raises does not make the executor fail: its traceback is
   * part of the returned text, after what the program wrote, unless the
   * program pointed `sys.stderr` away from the call's StringIO, in which
   * case the traceback goes there and the text is only what was written.
   */
  lemma ErrorsAreOutput(s: RuntimeState, command: string, setup: Setup, python: (Namespace, string) -> ScriptRun)
    requires setup.modulesImported && setup.stringIOCreated && setup.valueRetrieved
    requires var run := python(Initialized(s).main, CString(command)); run.raised && '\0' !in run.written + run.traceback
    ensures var run := python(Initialized(s).main, CString(command));
      run.stderr == Kept ==> Run(s, command, setup, python).1 == run.written + run.traceback
    ensures var run := python(Initialized(s).main, CString(command));
      run.stderr.Rebound? && run.stderr.to != Capture(s.sinks) ==> Run(s, command, setup, python).1 == run.written
  {
    var run := python(Initialized(s).main, CString(command));
    if Bound(run.stderr, Capture(s.sinks)) == Capture(s.sinks) {
      CStringWithoutNul(run.written + run.traceback);
    } else {
      assert '\0' !in run.written by {
        assert run.written <= run.written + run.traceback;
      }
      CStringWithoutNul(run.written);
    }
  }

  /**
   * Every call that gets past its setup makes a StringIO no earlier call
   * made and points `sys.stdout` and `sys.stderr` at it. The executor never
   * points them back: afterwards each is still that StringIO, not the
   * console, unless the program itself rebound it, and then it is wherever
   * the program left it.
   */
  lemma RedirectedToFreshSink(s: RuntimeState, command: string, setup: Setup, python: (Namespace, string) -> ScriptRun)
    requires setup.modulesImported && setup.stringIOCreated
    ensures Run(s, command, setup, python).0.sinks == s.sinks + 1
    ensures var run := python(Initialized(s).main, CString(command));
      var t := Run(s, command, setup, python).0;
      (run.stdout == Kept ==> t.stdout == Capture(s.sinks) && t.stdout != Console)
      && (run.stderr == Kept ==> t.stderr == Capture(s.sinks) && t.stderr != Console)
    ensures var run := python(Initialized(s).main, CString(command));
      var t := Run(s, command, setup, python).0;
      (run.stdout.Rebound? ==> t.stdout == run.stdout.to)
      && (run.stderr.Rebound? ==> t.stderr == run.stderr.to)
  {
  }

  /** After `Py_FinalizeEx`, the next call starts from a fresh `__main__` and initializes again. */
  lemma FinalizeForgets(s: RuntimeState, command: string, setup: Setup, python: (Namespace, string) -> ScriptRun)
    requires s.initialized
    ensures var t := Run(Finalized(s), command, setup, python).0;
      t.initializations == s.initializations + 1
    ensures setup.modulesImported && setup.stringIOCreated ==>
      Run(Finalized(s), command, setup, python).0.main == python(FreshMain, CString(command)).after
  {
  }

  /** The process-wide Python runtime. */
  class Runtime {
    var initialized: bool
    var main: Namespace
    var stdout: Stream
    var stderr: Stream
    var initializations: nat
    var sinks: nat

    function State(): RuntimeState
      reads this
    {
      RuntimeState(initialized, main, stdout, stderr, initializations, sinks)
    }

    constructor ()
      ensures State() == Start
    {
      initialized, main, stdout, stderr := false, FreshMain, Console, Console;
      initializations, sinks := 0, 0;
    }

    /** `Py_Initialize()`: a fresh interpreter with a fresh `__main__`. */
    method Initialize()
      modifies this
      ensures State() == RuntimeState(true, FreshMain, Console, Console, old(initializations) + 1, old(sinks))
    {
      initialized, main, stdout, stderr := true, FreshMain, Console, Console;
      initializations := initializations + 1;
    }

    /** `Py_FinalizeEx()` on a live runtime: everything Python held is gone. */
    method FinalizeEx()
      requires initialized
      modifies this
      ensures State() == Finalized(old(State()))
    {
      initialized, main, stdout, stderr := false, FreshMain, Console, Console;
    }

    /** `Interpreter::execute_python(command)`. */
    method Execute(command: string, setup: Setup, python: (Namespace, string) -> ScriptRun) returns (r: string)
      modifies this
      ensures (State(), r) == Run(old(State()), command, setup, python)
    {
      if !initialized {
        Initialize();
      }
      assert State() == Initialized(old(State()));
      var mainDict := main;
      if !setup.modulesImported {
        return ImportFailedText;
      }
      if !setup.stringIOCreated {
        return StringIOFailedText;
      }
      var stringIO := Capture(sinks);
      sinks := sinks + 1;
      stdout := stringIO;
      stderr := stringIO;
      var run := python(mainDict, CString(command));
      main := run.after;
      // The program may have rebound sys.stdout or sys.stderr.
      stdout := Bound(run.stdout, stdout);
      stderr := Bound(run.stderr, stderr);
      var written := run.written;
      if run.raised && stderr == stringIO {
        // PyErr_Print writes the traceback to sys.stderr, here the StringIO.
        written := written + run.traceback;
      }
      assert written == Captured(run, stringIO);
      if setup.valueRetrieved {
        r := CString(written);
      } else {
        r := RetrieveFailedText;
      }
    }
  }
}
