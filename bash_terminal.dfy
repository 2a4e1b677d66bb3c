/**
 * The Bash-only terminal window (`src/terminal.cpp`): the same two panes
 * and labels as the multi-language window, but every command goes to the
 * shell through `popen`, there is no interpreter choice and no File >
 * Open, and the one dialog is the folder chooser of File > Save as.
 */
module BashTerminal {
  import opened Cpp
  import Panes
  import ShellExecutor

  /** Everything the window's handlers change. */
  datatype View = View(panes: Panes.Panes, path: string, dialogCreated: bool, dialogShown: bool)

  /**
   * The text `on_execute_command` appends: the command's output with a
   * newline, or the text of the exception, which reaches
   * `append_to_output` as `e.what()`.
   */
  function ShownText(outcome: Outcome): string
  {
    match outcome
    case Returned(text) => text + "\n"
    case Threw(message) => CString(message)
  }

  /**
   * `on_execute_command`: warn on an empty input; otherwise run the input
   * in the shell and append what it printed, or why it failed.
   */
  function Executed(v: View, system: string -> ShellExecutor.Pipe): View
  {
    if v.panes.input == "" then v.(panes := v.panes.(inputLabel := Panes.EmptyInputLabel))
    else
      var outcome := ShellExecutor.BashOutcome(system(CString(v.panes.input)));
      v.(panes := v.panes.(output := Panes.Appended(v.panes.output, ShownText(outcome))))
  }

  /**
   * Executing a non-empty input touches only the output pane, which ends in
   * the shown text and keeps at most `MAX_OUTPUT_BUFFER_SIZE` characters.
   */
  lemma ExecutedAppends(v: View, system: string -> ShellExecutor.Pipe)
    requires v.panes.input != ""
    ensures var shown := ShownText(ShellExecutor.BashOutcome(system(CString(v.panes.input))));
      Executed(v, system) == v.(panes := v.panes.(output := Panes.Tail(v.panes.output + shown, Panes.MaxOutputBufferSize)))
  {
    var shown := ShownText(ShellExecutor.BashOutcome(system(CString(v.panes.input))));
    Panes.AppendKeepsLast(v.panes.output, shown);
  }

  /**
   * What the window shows for a pipe: the process's output and a newline
   * when it exits with status 0 (and wrote no NUL), the fixed message when
   * it cannot be started, and the status message otherwise.
   */
  lemma ShownForPipe(pipe: ShellExecutor.Pipe)
    ensures pipe.Finished? && pipe.status == 0 && '\0' !in pipe.stream ==>
      ShownText(ShellExecutor.BashOutcome(pipe)) == pipe.stream + "\n"
    ensures pipe.OpenFailed? ==> ShownText(ShellExecutor.BashOutcome(pipe)) == "Failed to execute command"
    ensures pipe.Finished? && pipe.status != 0 ==>
      ShownText(ShellExecutor.BashOutcome(pipe)) == "Command execution failed with status " + IntToString(pipe.status) + "\n"
  {
    match pipe
    case OpenFailed =>
      CStringWithoutNul(ShellExecutor.OpenFailedMessage);
    case Finished(stream, status) =>
      if status == 0 {
        if '\0' !in stream {
          ShellExecutor.SuccessReturnsOutput(stream);
        }
      } else {
        var message := ShellExecutor.StatusMessage(status);
        var digits := NatToDecimal(if status < 0 then -status else status);
        assert AllDigits(digits);
        assert '\0' !in digits;
        assert '\0' !in message;
        CStringWithoutNul(message);
      }
  }

  /** `on_menu_file_saveAs` on the window's state: the dialog is created once, then shown. */
  function DialogShown(v: View): View
  {
    v.(dialogCreated := true, dialogShown := true)
  }

  /** `on_menu_file_save`: the new state and the files written. */
  function Saved(v: View): (View, seq<Panes.FileWrite>)
  {
    var res := Panes.SaveAll(v.panes, v.path);
    var v1 := v.(panes := res.panes);
    (if res.askedForFolder then DialogShown(v1) else v1, res.writes)
  }

  /** `on_file_dialog_response`: the new state and the files written. */
  function FolderChosen(v: View, accepted: bool, folder: Option<string>): (View, seq<Panes.FileWrite>)
  {
    if accepted && folder.Some? then
      var (v1, writes) := Saved(v.(path := folder.value));
      (v1.(dialogShown := false), writes)
    else (v.(dialogShown := false), [])
  }

  /**
   * Every response hides the dialog. Choosing a folder remembers it
   * whatever the panes hold, saves both panes into it when neither is
   * empty (writing nothing otherwise), and saving again later writes to
   * the same place, without asking when the folder is not empty.
   * Cancelling only hides the dialog.
   */
  lemma FolderRemembered(v: View, accepted: bool, folder: Option<string>)
    ensures var (w, writes) := FolderChosen(v, accepted, folder);
      !w.dialogShown
      && (!(accepted && folder.Some?) ==> w == v.(dialogShown := false) && writes == [])
      && (accepted && folder.Some? ==> w.path == folder.value)
      && (accepted && folder.Some? && (v.panes.input == "" || v.panes.output == "") ==> writes == [])
    ensures var (w, writes) := FolderChosen(v, accepted, folder);
      accepted && folder.Some? && v.panes.input != "" && v.panes.output != "" ==>
        writes == [
          Panes.FileWrite(folder.value + "/" + Panes.CommandsFile, v.panes.input),
          Panes.FileWrite(folder.value + "/" + Panes.ResultFile, v.panes.output)]
        && Saved(w).1 == writes
        && (folder.value != "" ==> !Saved(w).0.dialogShown)
  {
    if accepted && folder.Some? && v.panes.input != "" && v.panes.output != "" {
      Panes.SaveWritesBoth(v.panes, folder.value);
      var (w, writes) := FolderChosen(v, accepted, folder);
      Panes.SaveWritesBoth(w.panes, folder.value);
    }
  }

  /** The terminal window. */
  class Terminal {
    var inputText: string
    var outputText: string
    var inputLabel: string
    var outputLabel: string
    var path: string
    var dialogCreated: bool
    var dialogShown: bool

    /** The output pane never holds more than `MAX_OUTPUT_BUFFER_SIZE` characters. */
    ghost predicate Valid()
      reads this
    {
      |outputText| <= Panes.MaxOutputBufferSize
    }

    function Text(): Panes.Panes
      reads this
    {
      Panes.Panes(inputText, outputText, inputLabel, outputLabel)
    }

    function Current(): View
      reads this
    {
      View(Text(), path, dialogCreated, dialogShown)
    }

    /** `Terminal()`: empty panes and the setup labels. */
    constructor ()
      ensures Valid()
      ensures Current() == View(Panes.Panes("", "", "Enter the command:", ""), "", false, false)
    {
      inputText, outputText := "", "";
      inputLabel, outputLabel := "Enter the command:", "";
      path, dialogCreated, dialogShown := "", false, false;
    }

    /** `on_menu_tools_clear(operation)`. */
    method OnMenuToolsClear(operation: int)
      requires Valid()
      modifies this
      ensures Valid()
      ensures Current() == old(Current()).(panes := Panes.Cleared(old(Text()), operation))
    {
      if operation == 0 || operation == 1 {
        inputText := "";
        inputLabel := Panes.EnterCommandLabel;
      }
      if operation == 0 || operation == 2 {
        outputText := "";
        outputLabel := Panes.ResultLabel;
      }
    }

    /** `append_to_output(text, is_error)`: the text as it is, with a newline unless it is an error. */
    method AppendToOutput(text: string, isError: bool)
      modifies this
      ensures Valid()
      ensures Current() == old(Current()).(panes := old(Text()).(
        output := Panes.Appended(old(outputText), if isError then text else text + "\n")))
    {
      if isError {
        outputText := outputText + text;
      } else {
        outputText := outputText + (text + "\n");
      }
      if |outputText| > Panes.MaxOutputBufferSize {
        outputText := outputText[|outputText| - Panes.MaxOutputBufferSize..];
      }
    }

    /**
     * `on_execute_command`; `Terminal::execute_command` is the same
     * `popen` loop as `Interpreter::execute_bash`. `system` says what the
     * operating system does with a command line.
     */
    method OnExecuteCommand(system: string -> ShellExecutor.Pipe)
      requires Valid()
      modifies this
      ensures Valid()
      ensures Current() == Executed(old(Current()), system)
    {
      var command := inputText;
      if command == "" {
        inputLabel := Panes.EmptyInputLabel;
        return;
      }
      var outcome := ShellExecutor.ExecuteBash(command, system);
      match outcome
      case Returned(output) =>
        AppendToOutput(output, false);
      case Threw(message) =>
        AppendToOutput(CString(message), true);
    }

    /** `on_menu_file_saveAs`. */
    method OnMenuFileSaveAs()
      requires Valid()
      modifies this
      ensures Valid()
      ensures Current() == DialogShown(old(Current()))
    {
      dialogCreated := true;
      dialogShown := true;
    }

    /** `on_menu_file_save`: returns the files it writes. */
    method OnMenuFileSave() returns (writes: seq<Panes.FileWrite>)
      requires Valid()
      modifies this
      ensures Valid()
      ensures (Current(), writes) == Saved(old(Current()))
    {
      var inputText := this.inputText;
      var outputText := this.outputText;
      if inputText == "" {
        inputLabel := Panes.EmptyInputLabel;
        return [];
      }
      if outputText == "" {
        outputLabel := Panes.EmptyOutputLabel;
        return [];
      }
      if path == "" {
        OnMenuFileSaveAs();
      }
      var filename := Panes.CommandsFile;
      var (ok, written) := Panes.Save(path + "/" + filename, inputText);
      inputLabel := Panes.SaveLabel(ok, path, filename);
      writes := Panes.Written(written);
      filename := Panes.ResultFile;
      var (okResult, writtenResult) := Panes.Save(path + "/" + filename, outputText);
      outputLabel := Panes.SaveLabel(okResult, path, filename);
      writes := writes + Panes.Written(writtenResult);
    }

    /** `on_file_dialog_response(response_id)`: `folder` is the chosen folder, if any. */
    method OnFileDialogResponse(accepted: bool, folder: Option<string>) returns (writes: seq<Panes.FileWrite>)
      requires Valid() && dialogCreated
      modifies this
      ensures Valid()
      ensures (Current(), writes) == FolderChosen(old(Current()), accepted, folder)
    {
      writes := [];
      if accepted && folder.Some? {
        path := folder.value;
        writes := OnMenuFileSave();
      }
      dialogShown := false;
    }
  }
}
