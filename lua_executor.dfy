/**
 * `Interpreter::execute_lua`: a new `lua_State` per call, a host `print`
 * installed as a global that writes into a call-local `std::ostringstream`
 * reached through the registry slot `"cpp_output_stream"`, the script run
 * with `luaL_dostring`, an error line on failure, and `lua_close`.
 *
 * Lua itself is an oracle: given the globals a fresh state starts with and
 * a script, it says which `print` calls the script made (their arguments)
 * and whether it ended in an error (and with which error value).
 */
module LuaExecutor {
  import opened Cpp

  /**
   * A Lua value as `lua_tostring` sees it: strings, numbers (with the text
   * Lua converts them to), functions and everything else.
   */
  datatype Value = LuaString(s: string) | LuaNumber(rendered: string) | LuaFunction | LuaOther

  /** The global table of a state, by name. */
  type Globals = map<string, Value>

  /** `lua_tostring` gives text for strings and numbers, and NULL for anything else. */
  predicate Showable(v: Value) {
    v.LuaString? || v.LuaNumber?
  }

  /** What the host `print` streams for a showable argument: its text as `lua_tostring` gives it. */
  function ToText(v: Value): string
    requires Showable(v)
  {
    match v
    case LuaString(s) => CString(s)
    case LuaNumber(rendered) => CString(rendered)
  }

  /** The texts of a print call's arguments, in order. */
  function Texts(args: seq<Value>): (ts: seq<string>)
    requires forall i :: 0 <= i < |args| ==> Showable(args[i])
    ensures |ts| == |args| && forall i :: 0 <= i < |args| ==> ts[i] == ToText(args[i])
  {
    seq(|args|, i requires 0 <= i < |args| => ToText(args[i]))
  }

  /** Fields separated by single tabs. */
  function JoinTabs(fields: seq<string>): string
    decreases |fields|
  {
    if fields == [] then ""
    else if |fields| == 1 then fields[0]
    else fields[0] + "\t" + JoinTabs(fields[1..])
  }

  /** The fields of a line, cut at every tab (the inverse of `JoinTabs`). */
  function SplitTabs(s: string): (fields: seq<string>)
    ensures |fields| >= 1
    decreases |s|
  {
    if s == [] then [""]
    else if s[0] == '\t' then [""] + SplitTabs(s[1..])
    else
      var rest := SplitTabs(s[1..]);
      [[s[0]] + rest[0]] + rest[1..]
  }

  /** The line the host `print` writes: its arguments joined by tabs, then one newline. */
  function PrintLine(args: seq<Value>): (line: string)
    requires forall i :: 0 <= i < |args| ==> Showable(args[i])
    ensures |line| >= 1 && line[|line| - 1] == '\n'
  {
    JoinTabs(Texts(args)) + "\n"
  }

  /** Everything a sequence of print calls writes, in order. */
  function Printed(calls: seq<seq<Value>>): string
    requires forall k, i :: 0 <= k < |calls| && 0 <= i < |calls[k]| ==> Showable(calls[k][i])
    decreases |calls|
  {
    if calls == [] then "" else Printed(calls[..|calls| - 1]) + PrintLine(calls[|calls| - 1])
  }

  /** How `luaL_dostring` ended: `LUA_OK`, or an error value on top of the stack. */
  datatype Status = Completed | Failed(error: Value)

  /** What a script did: the argument lists of its `print` calls and how it ended. */
  datatype ScriptRun = ScriptRun(prints: seq<seq<Value>>, status: Status)

  predicate PrintsShowable(run: ScriptRun) {
    forall k, i :: 0 <= k < |run.prints| && 0 <= i < |run.prints[k]| ==> Showable(run.prints[k][i])
  }

  /** The globals a script sees: no standard library, only the host `print`. */
  const Prepared: Globals := map["print" := LuaFunction]

  const StateFailedText := "Error: Failed to create Lua state.\n"

  /** The message of a failed script: the error value's text, or `"Unknown error"` when it has none. */
  function ErrorText(error: Value): string
  {
    if Showable(error) then ToText(error) else "Unknown error"
  }

  /** The line appended when the script fails. */
  function ErrorLine(status: Status): string
  {
    match status
    case Completed => ""
    case Failed(error) => "Lua Error: " + ErrorText(error) + "\n"
  }

  /** The text `execute_lua` returns. */
  function Output(allocates: bool, run: ScriptRun): string
    requires allocates ==> PrintsShowable(run)
  {
    if !allocates then StateFailedText else Printed(run.prints) + ErrorLine(run.status)
  }

  lemma {:induction false} JoinSnoc(fields: seq<string>, last: string)
    requires fields != []
    ensures JoinTabs(fields + [last]) == JoinTabs(fields) + "\t" + last
    decreases |fields|
  {
    if |fields| > 1 {
      assert (fields + [last])[1..] == fields[1..] + [last];
      JoinSnoc(fields[1..], last);
    } else {
      assert (fields + [last])[1..] == [last];
    }
  }

  lemma {:induction false} SplitAfterTab(field: string, rest: string)
    requires '\t' !in field
    ensures SplitTabs(field + "\t" + rest) == [field] + SplitTabs(rest)
    decreases |field|
  {
    var line := field + "\t" + rest;
    if field != [] {
      assert line[0] == field[0] && field[0] != '\t';
      assert line[1..] == field[1..] + "\t" + rest;
      SplitAfterTab(field[1..], rest);
      assert [field[0]] + field[1..] == field;
    } else {
      assert (field + "\t" + rest)[1..] == rest;
    }
  }

  lemma {:induction false} SplitWithoutTab(field: string)
    requires '\t' !in field
    ensures SplitTabs(field) == [field]
    decreases |field|
  {
    if field != [] {
      assert field[0] != '\t';
      SplitWithoutTab(field[1..]);
      assert [field[0]] + field[1..] == field;
    }
  }

  /** Tab-free fields can be read back from the joined text. */
  lemma {:induction false} SplitJoin(fields: seq<string>)
    requires fields != []
    requires forall k :: 0 <= k < |fields| ==> '\t' !in fields[k]
    ensures SplitTabs(JoinTabs(fields)) == fields
    decreases |fields|
  {
    if |fields| == 1 {
      SplitWithoutTab(fields[0]);
    } else {
      SplitAfterTab(fields[0], JoinTabs(fields[1..]));
      SplitJoin(fields[1..]);
    }
  }

  /** The texts of one more argument. */
  lemma TextsSnoc(args: seq<Value>, i: nat)
    requires i < |args| && forall j :: 0 <= j < |args| ==> Showable(args[j])
    ensures Texts(args[..i + 1]) == Texts(args[..i]) + [ToText(args[i])]
  {
    assert args[..i + 1][..i] == args[..i];
  }

  /** The output of one more print call. */
  lemma PrintedSnoc(calls: seq<seq<Value>>, k: nat)
    requires k < |calls|
    requires forall n, i :: 0 <= n < |calls| && 0 <= i < |calls[n]| ==> Showable(calls[n][i])
    ensures Printed(calls[..k + 1]) == Printed(calls[..k]) + PrintLine(calls[k])
  {
    assert calls[..k + 1][..k] == calls[..k];
  }

  /**
   * The line `print` writes is one line (its only newline is the last
   * character) whose tab-separated fields are exactly the arguments' texts,
   * when those contain no tab or newline.
   */
  lemma PrintLineFields(args: seq<Value>)
    requires args != []
    requires forall i :: 0 <= i < |args| ==> Showable(args[i])
    requires forall i :: 0 <= i < |args| ==> '\t' !in ToText(args[i]) && '\n' !in ToText(args[i])
    ensures var line := PrintLine(args);
      SplitTabs(line[..|line| - 1]) == Texts(args)
  {
    var line := PrintLine(args);
    assert line[..|line| - 1] == JoinTabs(Texts(args));
    SplitJoin(Texts(args));
  }

  /** `print()` with no arguments writes just a newline. */
  lemma PrintNothing()
    ensures PrintLine([]) == "\n"
  {
  }

  /** A failed script's output is what it printed, then the error line, nothing else. */
  lemma FailureAppendsErrorLine(run: ScriptRun, error: Value)
    requires PrintsShowable(run) && run.status == Failed(error)
    ensures Output(true, run) == Printed(run.prints) + "Lua Error: " + ErrorText(error) + "\n"
    ensures !Showable(error) ==> Output(true, run) == Printed(run.prints) + "Lua Error: Unknown error\n"
  {
  }

  /** The string stream each call creates to capture what its script prints. */
  class Sink {
    var text: string

    constructor ()
      ensures text == ""
    {
      text := "";
    }
  }

  /** A `lua_State`: its globals, the registry slot holding the sink, and whether it was closed. */
  class State {
    var globals: Globals
    var registryOutput: Sink?
    var closed: bool

    /** `luaL_newstate()`: no libraries opened, nothing in the registry. */
    constructor ()
      ensures globals == map[] && registryOutput == null && !closed
    {
      globals, registryOutput, closed := map[], null, false;
    }

    /** `lua_setglobal(L, name)` with `value` on the stack. */
    method SetGlobal(name: string, value: Value)
      modifies this
      ensures globals == old(globals)[name := value]
      ensures registryOutput == old(registryOutput) && closed == old(closed)
    {
      globals := globals[name := value];
    }

    /** `lua_setfield(L, LUA_REGISTRYINDEX, "cpp_output_stream")` with the sink's address. */
    method SetOutput(output: Sink)
      modifies this
      ensures registryOutput == output
      ensures globals == old(globals) && closed == old(closed)
    {
      registryOutput := output;
    }

    /** `lua_close(L)`. */
    method Close()
      modifies this
      ensures closed
      ensures globals == old(globals) && registryOutput == old(registryOutput)
    {
      closed := true;
    }
  }

  /**
   * The C function installed as `print`: format the arguments into a local
   * stream, then append that line to the sink the registry points at.
   */
  method Print(L: State, args: seq<Value>)
    requires forall i :: 0 <= i < |args| ==> Showable(args[i])
    modifies L.registryOutput
    ensures L.registryOutput != null ==> L.registryOutput.text == old(L.registryOutput.text) + PrintLine(args)
  {
    var oss := "";
    var i := 0;
    while i < |args|
      invariant 0 <= i <= |args|
      invariant oss == JoinTabs(Texts(args[..i]))
      modifies {}
    {
      if i > 0 {
        oss := oss + "\t";
        JoinSnoc(Texts(args[..i]), ToText(args[i]));
      }
      TextsSnoc(args, i);
      oss := oss + ToText(args[i]);
      i := i + 1;
    }
    assert args[..i] == args;
    oss := oss + "\n";
    assert oss == PrintLine(args);
    var out := L.registryOutput;
    if out != null {
      out.text := out.text + oss;
    }
  }

  /**
   * The `print` calls a script makes while it runs, in order, each
   * appending its line to the state's sink.
   */
  method RunPrints(L: State, prints: seq<seq<Value>>)
    requires L.registryOutput != null
    requires forall n, i :: 0 <= n < |prints| && 0 <= i < |prints[n]| ==> Showable(prints[n][i])
    modifies L.registryOutput
    ensures L.registryOutput.text == old(L.registryOutput.text) + Printed(prints)
  {
    var out := L.registryOutput;
    var k := 0;
    while k < |prints|
      invariant 0 <= k <= |prints|
      invariant out.text == old(out.text) + Printed(prints[..k])
    {
      Print(L, prints[k]);
      PrintedSnoc(prints, k);
      ConcatAssociative(old(out.text), Printed(prints[..k]), PrintLine(prints[k]));
      k := k + 1;
    }
    assert prints[..k] == prints;
  }

  /**
   * `Interpreter::execute_lua(command)`. `allocates` says whether
   * `luaL_newstate` succeeds; `lua` says what the script does when run
   * against a state's globals. `state` is the state the call used.
   */
  method Execute(command: string, allocates: bool, lua: (Globals, string) -> ScriptRun)
    returns (r: string, ghost state: State?)
    requires allocates ==> PrintsShowable(lua(Prepared, CString(command)))
    ensures r == Output(allocates, lua(Prepared, CString(command)))
    ensures state == null <==> !allocates
    ensures state != null ==> fresh(state) && state.closed
  {
    if !allocates {
      return StateFailedText, null;
    }
    var L := new State();
    var output := new Sink();
    L.SetGlobal("print", LuaFunction);
    assert L.globals == Prepared;
    L.SetOutput(output);
    var run := lua(L.globals, CString(command));
    RunPrints(L, run.prints);
    assert output.text == Printed(run.prints);
    if run.status.Failed? {
      var line := "Lua Error: " + ErrorText(run.status.error) + "\n";
      output.text := output.text + line;
    }
    assert output.text == Output(allocates, run);
    L.Close();
    r, state := output.text, L;
  }
}
