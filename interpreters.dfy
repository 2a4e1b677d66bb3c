/**
 * The `Interpreter` class: the `Languages` enum and the `names` table, the
 * bounds-checked `language` lookup behind `name`, the dispatcher
 * `execute_command`, and the destructor, which finalizes a live Python
 * runtime.
 */
module Interpreters {
  import opened Cpp
  import ShellExecutor
  import PythonExecutor
  import LuaExecutor

  /** The `Languages` enum: DEFAULT, BASH, PYTHON and LUA, numbered from 0. */
  datatype Language = Default | Bash | Python | Lua {
    /** The enumerator's integer value; the `names` entry at that index is the language's label. */
    function Value(): (v: nat)
      ensures v < |Names| && Names[v] == Label(this)
    {
      match this
      case Default => 0
      case Bash => 1
      case Python => 2
      case Lua => 3
    }
  }

  /** The enumerator with a given value, if any. */
  function FromValue(v: int): (l: Option<Language>)
    ensures l.Some? <==> 0 <= v < 4
    ensures l.Some? ==> l.value.Value() == v
  {
    if v == 0 then Some(Default)
    else if v == 1 then Some(Bash)
    else if v == 2 then Some(Python)
    else if v == 3 then Some(Lua)
    else None
  }

  /** The `names` table: the label of each language at the index of its enumerator. */
  const Names: seq<string> := ["", "Bash", "Python", "Lua"]

  /** The label of each language, as the menu shows it (`""` for `DEFAULT`). */
  function Label(l: Language): string
  {
    match l
    case Default => ""
    case Bash => "Bash"
    case Python => "Python"
    case Lua => "Lua"
  }

  /** `Interpreter::language(index)`: `names.at(index)` when in range, else `names.at(0)`. */
  function LanguageName(index: int): (r: string)
  {
    if 0 <= index < |Names| then Names[index] else Names[0]
  }

  /** The table is index-aligned with the enum: the name at a language's value is its label. */
  lemma NamesAligned(index: int)
    ensures LanguageName(index) == match FromValue(index) case Some(l) => Label(l) case None => ""
  {
  }

  /** A name is empty exactly when the index is not one of BASH, PYTHON, LUA (negatives included). */
  lemma NameEmptyIff(index: int)
    ensures LanguageName(index) == "" <==> !(Bash.Value() <= index <= Lua.Value())
  {
  }

  /** `size_t` is 64 bits wide. */
  const SizeModulus: nat := 0x1_0000_0000_0000_0000

  /** The `int` to `size_t` conversion a call `execute_command(command, m_interpreter_type)` makes. */
  function ToSizeT(v: int): (n: nat)
    ensures n < SizeModulus
    ensures 0 <= v < SizeModulus ==> n == v
  {
    v % SizeModulus
  }

  /** A negative `int` becomes a huge `size_t`, never 1, 2 or 3. */
  lemma NegativeSelectorUnsupported(v: int)
    requires -0x8000_0000 <= v < 0
    ensures ToSizeT(v) == SizeModulus + v
    ensures FromValue(ToSizeT(v)) == None
  {
  }

  const NotSupportedText := "Language not supported!"

  /** Everything the native side does in one call, for each runtime. */
  datatype Native = Native(
    shell: string -> ShellExecutor.Pipe,
    pythonSetup: PythonExecutor.Setup,
    python: (PythonExecutor.Namespace, string) -> PythonExecutor.ScriptRun,
    luaAllocates: bool,
    lua: (LuaExecutor.Globals, string) -> LuaExecutor.ScriptRun)

  /** What a call needs of the native side: Lua `print` is only ever given strings and numbers. */
  predicate Runnable(command: string, selector: nat, native: Native)
  {
    selector == Lua.Value() && native.luaAllocates ==>
      LuaExecutor.PrintsShowable(native.lua(LuaExecutor.Prepared, CString(command)))
  }

  /** The Python runtime afterwards and the outcome of `execute_command(command, selector)`. */
  function Execute(py: PythonExecutor.RuntimeState, command: string, selector: nat, native: Native)
    : (PythonExecutor.RuntimeState, Outcome)
    requires Runnable(command, selector, native)
  {
    if selector == Bash.Value() then
      (py, ShellExecutor.BashOutcome(native.shell(CString(command))))
    else if selector == Python.Value() then
      var (t, text) := PythonExecutor.Run(py, command, native.pythonSetup, native.python);
      (t, Returned(text))
    else if selector == Lua.Value() then
      (py, Returned(LuaExecutor.Output(native.luaAllocates, native.lua(LuaExecutor.Prepared, CString(command)))))
    else
      (py, Returned(NotSupportedText))
  }

  /**
   * Every selector other than BASH, PYTHON and LUA (DEFAULT, and every
   * value a negative `int` converts to) returns the fixed diagnostic and
   * leaves the Python runtime alone.
   */
  lemma UnsupportedSelector(py: PythonExecutor.RuntimeState, command: string, selector: nat, native: Native)
    requires FromValue(selector) == None || FromValue(selector) == Some(Default)
    ensures Runnable(command, selector, native)
    ensures Execute(py, command, selector, native) == (py, Returned(NotSupportedText))
  {
  }

  /** Only PYTHON touches the Python runtime; only BASH can throw. */
  lemma OnlyPythonChangesRuntime(py: PythonExecutor.RuntimeState, command: string, selector: nat, native: Native)
    requires Runnable(command, selector, native)
    ensures selector != Python.Value() ==> Execute(py, command, selector, native).0 == py
    ensures Execute(py, command, selector, native).1.Threw? ==> selector == Bash.Value()
  {
  }

  /**
   * The Lua executor's result does not depend on the Python runtime or on
   * earlier calls. The isolation comes from `LuaExecutor.Execute`, which
   * makes a new state for every call and runs the script against
   * `Prepared`, the globals of a fresh state with only `print` set; the
   * Python runtime is the only state that crosses calls, and the Lua branch
   * never reads it.
   */
  lemma LuaIsIsolated(py1: PythonExecutor.RuntimeState, py2: PythonExecutor.RuntimeState, command: string, native: Native)
    requires Runnable(command, Lua.Value(), native)
    ensures Execute(py1, command, Lua.Value(), native).1 == Execute(py2, command, Lua.Value(), native).1
  {
  }

  /** `Interpreter::execute_command(command, language_type)`. */
  method ExecuteCommand(command: string, selector: nat, runtime: PythonExecutor.Runtime, native: Native)
    returns (r: Outcome)
    requires Runnable(command, selector, native)
    modifies runtime
    ensures (runtime.State(), r) == Execute(old(runtime.State()), command, selector, native)
  {
    if selector == Bash.Value() {
      r := ShellExecutor.ExecuteBash(command, native.shell);
    } else if selector == Python.Value() {
      var text := runtime.Execute(command, native.pythonSetup, native.python);
      r := Returned(text);
    } else if selector == Lua.Value() {
      var text, _ := LuaExecutor.Execute(command, native.luaAllocates, native.lua);
      r := Returned(text);
    } else {
      r := Returned(NotSupportedText);
    }
  }

  /** `Interpreter::~Interpreter()`: finalize the Python runtime if it is live. */
  method Destroy(runtime: PythonExecutor.Runtime)
    modifies runtime
    ensures runtime.State() == PythonExecutor.Finalized(old(runtime.State()))
  {
    if runtime.initialized {
      runtime.FinalizeEx();
    }
  }

  /**
   * `Interpreter::name(index)`: look the name up in a temporary
   * `Interpreter`, whose destructor then finalizes the Python runtime.
   */
  method Name(index: int, runtime: PythonExecutor.Runtime) returns (s: string)
    modifies runtime
    ensures s == LanguageName(index)
    ensures runtime.State() == PythonExecutor.Finalized(old(runtime.State()))
    ensures !runtime.initialized
  {
    s := LanguageName(index);
    Destroy(runtime);
  }

  /**
   * Asking for any name between two Python calls throws the first call's
   * definitions away: the second runs against a fresh `__main__` and
   * initializes the runtime again.
   */
  lemma NameForgetsPythonDefinitions(py: PythonExecutor.RuntimeState, first: string, second: string, native: Native)
    requires native.pythonSetup.modulesImported && native.pythonSetup.stringIOCreated
    ensures var afterFirst := Execute(py, first, Python.Value(), native).0;
      var afterName := PythonExecutor.Finalized(afterFirst);
      var afterSecond := Execute(afterName, second, Python.Value(), native).0;
      afterSecond.main == native.python(PythonExecutor.FreshMain, CString(second)).after
      && afterSecond.initializations == afterFirst.initializations + 1
  {
  }
}
