/**
 * The window of the multi-language terminal (`Terminal_GTKmm`): its text
 * panes and labels, the status bar naming the interpreter, the selected
 * interpreter, the folder or file path, and the one file chooser the
 * window creates on first use. Widgets, menus, colours and scrolling are
 * not modelled; the state their handlers change is.
 */
module GtkmmTerminal {
  import opened Cpp
  import Panes
  import Interpreters
  import PythonExecutor

  /** The handler `m_pFileDialog` was created with, if it exists: File > Open or File > Save as. */
  datatype Dialog = NoDialog | OpenScript | SelectFolder

  /** Everything the window's handlers change. */
  datatype View = View(
    panes: Panes.Panes, status: string, interpreter: int, path: string, dialog: Dialog, dialogShown: bool)

  const UndefinedStatus := "Undefined Interpreter"
  const OpenFailedAlert := "Failed to open file."
  const UnsupportedAlert := "Unsupported file type."

  /** The status bar text for an interpreter name. */
  function StatusText(name: string): string
  {
    if name != "" then "Interpreter: " + name else UndefinedStatus
  }

  /** `on_menu_interpreter(t)`, on the window's state. */
  function WithInterpreter(v: View, t: int): View
  {
    v.(interpreter := t, status := StatusText(Interpreters.LanguageName(t)))
  }

  /**
   * The status bar names the interpreter for BASH, PYTHON and LUA and
   * reads `"Undefined Interpreter"` for every other number.
   */
  lemma StatusRule(v: View, t: int)
    ensures WithInterpreter(v, t).interpreter == t
    ensures WithInterpreter(v, t).status == UndefinedStatus <==> Interpreters.FromValue(t) !in {Some(Interpreters.Bash), Some(Interpreters.Python), Some(Interpreters.Lua)}
    ensures forall l: Interpreters.Language :: l != Interpreters.Default && t == l.Value() ==>
      WithInterpreter(v, t).status == "Interpreter: " + Interpreters.Label(l)
  {
    Interpreters.NamesAligned(t);
  }

  predicate EndsWith(s: string, suffix: string)
  {
    |suffix| <= |s| && s[|s| - |suffix|..] == suffix
  }

  /** The interpreter a script's file name selects: `.py`, `.lua`, `.sh`, checked in that order. */
  function ExtensionLanguage(path: string): Option<Interpreters.Language>
  {
    if EndsWith(path, ".py") then Some(Interpreters.Python)
    else if EndsWith(path, ".lua") then Some(Interpreters.Lua)
    else if EndsWith(path, ".sh") then Some(Interpreters.Bash)
    else None
  }

  /** Each script suffix selects its interpreter, whatever precedes it; nothing selects DEFAULT. */
  lemma ExtensionOfScript(stem: string, path: string)
    ensures ExtensionLanguage(stem + ".py") == Some(Interpreters.Python)
    ensures ExtensionLanguage(stem + ".lua") == Some(Interpreters.Lua)
    ensures ExtensionLanguage(stem + ".sh") == Some(Interpreters.Bash)
    ensures ExtensionLanguage(path) != Some(Interpreters.Default)
    ensures ExtensionLanguage(path) == None <==> !EndsWith(path, ".py") && !EndsWith(path, ".lua") && !EndsWith(path, ".sh")
  {
    var py, lua, sh := stem + ".py", stem + ".lua", stem + ".sh";
    assert py[|py| - 3..] == ".py";
    assert lua[|lua| - 4..] == ".lua";
    assert lua[|lua| - 3..][0] == 'l';
    assert sh[|sh| - 3..] == ".sh";
    assert sh[|sh| - 3..][1] == 's';
    if |sh| >= 4 {
      assert sh[|sh| - 4..][1] == '.';
    }
  }

  /** The File > Open or File > Save as dialog is shown; it is created only if none exists yet. */
  function DialogShown(v: View, kind: Dialog): View
  {
    v.(dialog := if v.dialog == NoDialog then kind else v.dialog, dialogShown := true)
  }

  /** The text `append_to_output` inserts: an error as it is, other output with a newline. */
  function Piece(text: string, isError: bool): string
  {
    if isError then CString(text) else CString(text) + "\n"
  }

  /** `on_execute_command` on an empty input. */
  function Warned(v: View): View
  {
    v.(panes := v.panes.(inputLabel := Panes.EmptyInputLabel))
  }

  /** The text `on_execute_command` appends for an outcome. */
  function ShownText(outcome: Outcome): string
  {
    match outcome
    case Returned(text) => Piece(text, false)
    case Threw(message) => Piece(message, true)
  }

  /** `on_execute_command` once execution returned or threw: the text goes to the output pane. */
  function Shown(v: View, outcome: Outcome): View
  {
    v.(panes := v.panes.(output := Panes.Appended(v.panes.output, ShownText(outcome))))
  }

  /** Returned output is shown with one newline after it; the message of an exception as it is. */
  lemma ShownTextRule(outcome: Outcome)
    ensures outcome.Returned? && '\0' !in outcome.text ==> ShownText(outcome) == outcome.text + "\n"
    ensures outcome.Threw? && '\0' !in outcome.message ==> ShownText(outcome) == outcome.message
    ensures '\0' !in ShownText(outcome)
  {
    match outcome
    case Returned(text) =>
      if '\0' !in text { CStringWithoutNul(text); }
      assert ShownText(outcome) == CString(text) + "\n";
    case Threw(message) =>
      if '\0' !in message { CStringWithoutNul(message); }
  }

  /**
   * Executing a command touches only the output pane, which then ends in
   * the shown text and stays within its limit.
   */
  lemma ExecutionShown(v: View, outcome: Outcome)
    ensures |Shown(v, outcome).panes.output| <= Panes.MaxOutputBufferSize
    ensures Shown(v, outcome) == v.(panes := v.panes.(output := Shown(v, outcome).panes.output))
    ensures |v.panes.output + ShownText(outcome)| <= Panes.MaxOutputBufferSize ==>
      Shown(v, outcome).panes.output == v.panes.output + ShownText(outcome)
    ensures var out := Shown(v, outcome).panes.output; var shown := ShownText(outcome);
      |shown| <= Panes.MaxOutputBufferSize ==> |out| >= |shown| && out[|out| - |shown|..] == shown
  {
    Panes.AppendKeepsLast(v.panes.output, ShownText(outcome));
    if |ShownText(outcome)| <= Panes.MaxOutputBufferSize {
      Panes.AppendShowsNewest(v.panes.output, ShownText(outcome));
    }
  }

  /**
   * The window hands the dispatcher `data()` of its input, and each
   * executor takes `data()` of that again: the input is cut at its first
   * NUL once, and the second cut changes nothing, so running the cut input
   * is running the input.
   */
  lemma CommandCutOnce(py: PythonExecutor.RuntimeState, input: string, selector: nat, native: Interpreters.Native)
    ensures Interpreters.Runnable(CString(input), selector, native) <==> Interpreters.Runnable(input, selector, native)
    ensures Interpreters.Runnable(input, selector, native) ==>
      Interpreters.Execute(py, CString(input), selector, native) == Interpreters.Execute(py, input, selector, native)
  {
    CStringIdempotent(input);
  }

  /**
   * The response of the File > Open dialog: the new state and the text of
   * the alert presented, if any (a local message dialog, destroyed as soon
   * as the handler returns).
   */
  function Opened(v: View, accepted: bool, file: Option<string>, contents: Option<string>): (View, Option<string>)
  {
    if accepted && file.Some? then
      var v1 := v.(path := file.value);
      if contents.None? then (v1, Some(OpenFailedAlert))
      else
        match ExtensionLanguage(file.value)
        case None => (v1, Some(UnsupportedAlert))
        case Some(l) =>
          var v2 := v1.(interpreter := l.Value());
          var v3 := v2.(panes := Panes.Cleared(v2.panes, 0));
          var v4 := WithInterpreter(v3, l.Value());
          (v4.(panes := v4.panes.(input := contents.value), dialogShown := false), None)
    else (v.(dialogShown := false), None)
  }

  /** Whether a File > Open response loads a script. */
  predicate Loads(accepted: bool, file: Option<string>, contents: Option<string>)
  {
    accepted && file.Some? && contents.Some? && ExtensionLanguage(file.value).Some?
  }

  /**
   * Loading a script empties the output pane, puts the file into the input
   * pane, selects the interpreter its suffix names and hides the dialog.
   */
  lemma OpenLoadsScript(v: View, file: string, contents: string, l: Interpreters.Language)
    requires ExtensionLanguage(file) == Some(l)
    ensures var (w, alert) := Opened(v, true, Some(file), Some(contents));
      alert == None && w.path == file && w.interpreter == l.Value()
      && w.panes == Panes.Panes(contents, "", Panes.EnterCommandLabel, Panes.ResultLabel)
      && w.status == "Interpreter: " + Interpreters.Label(l) && !w.dialogShown && w.dialog == v.dialog
  {
    ExtensionOfScript("", file);
    Interpreters.NamesAligned(l.Value());
  }

  /**
   * A file with another suffix, or one that cannot be read, changes only
   * the path (already overwritten), presents an alert that is destroyed
   * at once, and leaves the file dialog on screen.
   */
  lemma OpenRejects(v: View, file: string, contents: Option<string>)
    requires contents.None? || ExtensionLanguage(file) == None
    ensures var (w, alert) := Opened(v, true, Some(file), contents);
      w == v.(path := file)
      && alert == Some(if contents.None? then "Failed to open file." else "Unsupported file type.")
  {
  }

  /** The response of the File > Save as dialog: the new state and the files written. */
  function FolderChosen(v: View, accepted: bool, folder: Option<string>): (View, seq<Panes.FileWrite>)
  {
    if accepted && folder.Some? then
      var v1 := v.(path := folder.value);
      var (v2, writes) := Saved(v1);
      (v2.(dialogShown := false), writes)
    else (v.(dialogShown := false), [])
  }

  /** `on_menu_file_save`: the new state and the files written. */
  function Saved(v: View): (View, seq<Panes.FileWrite>)
  {
    var res := Panes.SaveAll(v.panes, v.path);
    var v1 := v.(panes := res.panes);
    (if res.askedForFolder then DialogShown(v1, SelectFolder) else v1, res.writes)
  }

  /**
   * Every response hides the dialog. Choosing a folder stores it as the
   * path before anything else, then saves both panes into it when neither
   * is empty and writes nothing otherwise; cancelling only hides the
   * dialog.
   */
  lemma FolderSaves(v: View, accepted: bool, folder: Option<string>)
    ensures var (w, writes) := FolderChosen(v, accepted, folder);
      !w.dialogShown
      && (!(accepted && folder.Some?) ==> w == v.(dialogShown := false) && writes == [])
      && (accepted && folder.Some? ==> w.path == folder.value)
      && (accepted && folder.Some? && (v.panes.input == "" || v.panes.output == "") ==> writes == [])
      && (accepted && folder.Some? && v.panes.input != "" && v.panes.output != "" ==>
            writes == [
              Panes.FileWrite(folder.value + "/" + Panes.CommandsFile, v.panes.input),
              Panes.FileWrite(folder.value + "/" + Panes.ResultFile, v.panes.output)])
  {
    if accepted && folder.Some? && v.panes.input != "" && v.panes.output != "" {
      Panes.SaveWritesBoth(v.panes, folder.value);
    }
  }

  /** The one terminal window. */
  class Terminal {
    var inputText: string
    var outputText: string
    var inputLabel: string
    var outputLabel: string
    var statusText: string
    var interpreterType: int
    var path: string
    var dialog: Dialog
    var dialogShown: bool
    /** The process-wide Python runtime the interpreter drives. */
    const python: PythonExecutor.Runtime

    /** The output pane never holds more than `MAX_OUTPUT_BUFFER_SIZE` characters. */
    ghost predicate Valid()
      reads this
    {
      |outputText| <= Panes.MaxOutputBufferSize
    }

    function Text(): Panes.Panes
      reads this
    {
      Panes.Panes(inputText, outputText, inputLabel, outputLabel)
    }

    function Current(): View
      reads this
    {
      View(Text(), statusText, interpreterType, path, dialog, dialogShown)
    }

    /** `Terminal()`: empty panes, the setup labels, and BASH selected. */
    constructor (python: PythonExecutor.Runtime)
      modifies python
      ensures Valid() && this.python == python
      ensures Current() == View(Panes.Panes("", "", "Enter the command:", ""), "Interpreter: Bash", 1, "", NoDialog, false)
      ensures python.State() == PythonExecutor.Finalized(old(python.State()))
    {
      this.python := python;
      inputText, outputText := "", "";
      inputLabel, outputLabel := "Enter the command:", "";
      statusText, interpreterType := "", Interpreters.Language.Default.Value();
      path, dialog, dialogShown := "", NoDialog, false;
      new;
      OnMenuInterpreter(Interpreters.Language.Bash.Value());
    }

    /** `on_menu_tools_clear(operation)`. */
    method OnMenuToolsClear(operation: int)
      requires Valid()
      modifies this
      ensures Valid()
      ensures Current() == old(Current()).(panes := Panes.Cleared(old(Text()), operation))
    {
      if operation == 0 || operation == 1 {
        inputText := "";
        inputLabel := Panes.EnterCommandLabel;
      }
      if operation == 0 || operation == 2 {
        outputText := "";
        outputLabel := Panes.ResultLabel;
      }
    }

    /** `on_menu_interpreter(interpreter_type)`; `Interpreter::name` finalizes Python on the way. */
    method OnMenuInterpreter(t: int)
      requires Valid()
      modifies this, python
      ensures Valid()
      ensures Current() == WithInterpreter(old(Current()), t)
      ensures python.State() == PythonExecutor.Finalized(old(python.State()))
    {
      interpreterType := t;
      var name := Interpreters.Name(t, python);
      statusText := if name != "" then "Interpreter: " + name else UndefinedStatus;
    }

    /** `append_to_output(text, is_error)`: insert at the end, then erase the oldest characters over the limit. */
    method AppendToOutput(text: string, isError: bool)
      modifies this
      ensures Valid()
      ensures Current() == old(Current()).(panes := old(Text()).(output := Panes.Appended(old(outputText), Piece(text, isError))))
    {
      if isError {
        outputText := outputText + CString(text);
      } else {
        var txt := CString(text);
        outputText := outputText + (txt + "\n");
      }
      if |outputText| > Panes.MaxOutputBufferSize {
        outputText := outputText[|outputText| - Panes.MaxOutputBufferSize..];
      }
    }

    /**
     * `on_execute_command`: warn on empty input; otherwise run the input
     * (as `const char*`) with the selected interpreter and append what it
     * returns, or the message of what it throws.
     */
    method OnExecuteCommand(native: Interpreters.Native)
      requires Valid()
      requires inputText != "" ==>
        Interpreters.Runnable(CString(inputText), Interpreters.ToSizeT(interpreterType), native)
      modifies this, python
      ensures Valid()
      ensures old(inputText) == "" ==> Current() == Warned(old(Current())) && python.State() == old(python.State())
      ensures old(inputText) != "" ==>
        var (py, outcome) := Interpreters.Execute(
          old(python.State()), CString(old(inputText)), Interpreters.ToSizeT(old(interpreterType)), native);
        Current() == Shown(old(Current()), outcome) && python.State() == py
    {
      var command := inputText;
      if command == "" {
        inputLabel := Panes.EmptyInputLabel;
        return;
      }
      var outcome := Interpreters.ExecuteCommand(CString(command), Interpreters.ToSizeT(interpreterType), python, native);
      match outcome
      case Returned(output) =>
        AppendToOutput(output, false);
      case Threw(message) =>
        AppendToOutput(message, true);
    }

    /** `on_menu_file_open`: show the dialog, creating it for File > Open if none exists. */
    method OnMenuFileOpen()
      requires Valid()
      modifies this
      ensures Valid()
      ensures Current() == DialogShown(old(Current()), OpenScript)
    {
      if dialog == NoDialog {
        dialog := OpenScript;
      }
      dialogShown := true;
    }

    /** `on_menu_file_saveAs`: show the dialog, creating it for File > Save as if none exists. */
    method OnMenuFileSaveAs()
      requires Valid()
      modifies this
      ensures Valid()
      ensures Current() == DialogShown(old(Current()), SelectFolder)
    {
      if dialog == NoDialog {
        dialog := SelectFolder;
      }
      dialogShown := true;
    }

    /** `on_menu_file_save`: returns the files it writes. */
    method OnMenuFileSave() returns (writes: seq<Panes.FileWrite>)
      requires Valid()
      modifies this
      ensures Valid()
      ensures (Current(), writes) == Saved(old(Current()))
    {
      var inputText := this.inputText;
      var outputText := this.outputText;
      if inputText == "" {
        inputLabel := Panes.EmptyInputLabel;
        return [];
      }
      if outputText == "" {
        outputLabel := Panes.EmptyOutputLabel;
        return [];
      }
      if path == "" {
        OnMenuFileSaveAs();
      }
      var filename := Panes.CommandsFile;
      var (ok, written) := Panes.Save(path + "/" + filename, inputText);
      inputLabel := Panes.SaveLabel(ok, path, filename);
      writes := Panes.Written(written);
      filename := Panes.ResultFile;
      var (okResult, writtenResult) := Panes.Save(path + "/" + filename, outputText);
      outputLabel := Panes.SaveLabel(okResult, path, filename);
      writes := writes + Panes.Written(writtenResult);
    }

    /**
     * The response handler of a dialog created by File > Open. `file` is
     * the chosen path, `contents` the file's text (`None` when it cannot
     * be read). Returns the text of the alert presented, if any.
     */
    method OnOpenResponse(accepted: bool, file: Option<string>, contents: Option<string>)
      returns (alert: Option<string>)
      requires Valid() && dialog == OpenScript
      modifies this, python
      ensures Valid()
      ensures (Current(), alert) == Opened(old(Current()), accepted, file, contents)
      ensures python.State() ==
        if Loads(accepted, file, contents) then PythonExecutor.Finalized(old(python.State())) else old(python.State())
    {
      if accepted && file.Some? {
        path := file.value;
        if contents.None? {
          return Some(OpenFailedAlert);
        }
        var language := ExtensionLanguage(path);
        if language.None? {
          return Some(UnsupportedAlert);
        }
        interpreterType := language.value.Value();
        OnMenuToolsClear(0);
        OnMenuInterpreter(interpreterType);
        inputText := contents.value;
      }
      dialogShown := false;
      alert := None;
    }

    /** The response handler of a dialog created by File > Save as. Returns the files written. */
    method OnFolderResponse(accepted: bool, folder: Option<string>) returns (writes: seq<Panes.FileWrite>)
      requires Valid() && dialog == SelectFolder
      modifies this
      ensures Valid()
      ensures (Current(), writes) == FolderChosen(old(Current()), accepted, folder)
    {
      writes := [];
      if accepted && folder.Some? {
        path := folder.value;
        writes := OnMenuFileSave();
      }
      dialogShown := false;
    }
  }
}
