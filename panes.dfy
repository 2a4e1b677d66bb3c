/**
 * The text state both terminal windows keep, and the rules both apply to
 * it: the input and output buffers with the label above each, clearing
 * by operation number, appending to the output buffer while keeping only
 * its last `MAX_OUTPUT_BUFFER_SIZE` characters, and saving both buffers
 * under a folder.
 */
module Panes {
  import opened Cpp

  /** `MAX_OUTPUT_BUFFER_SIZE`. */
  const MaxOutputBufferSize: nat := 100000

  /** The input and output text buffers and the labels `m_info_input` and `m_info_output`. */
  datatype Panes = Panes(input: string, output: string, inputLabel: string, outputLabel: string)

  const EnterCommandLabel := "Enter a command:"
  const ResultLabel := "Result:"
  const EmptyInputLabel := "Empty command input! Enter a command:"
  const EmptyOutputLabel := "Empty output!"
  const FailedSaveLabel := "There was something wrong!"
  const CommandsFile := "terminal_commands.txt"
  const ResultFile := "terminal_result.txt"

  /** `on_menu_tools_clear(operation)`: 0 clears both panes, 1 the input, 2 the output. */
  function Cleared(p: Panes, op: int): Panes
  {
    var p1 := if op == 0 || op == 1 then p.(input := "", inputLabel := EnterCommandLabel) else p;
    if op == 0 || op == 2 then p1.(output := "", outputLabel := ResultLabel) else p1
  }

  /** Clearing all is clearing the input and then the output; any other number changes nothing. */
  lemma ClearOperations(p: Panes, op: int)
    ensures Cleared(p, 0) == Cleared(Cleared(p, 1), 2) == Cleared(Cleared(p, 2), 1)
    ensures op !in {0, 1, 2} ==> Cleared(p, op) == p
    ensures Cleared(Cleared(p, op), op) == Cleared(p, op)
    ensures op == 1 ==> Cleared(p, op).output == p.output && Cleared(p, op).outputLabel == p.outputLabel
    ensures op == 2 ==> Cleared(p, op).input == p.input && Cleared(p, op).inputLabel == p.inputLabel
  {
  }

  /** The last `n` characters of `s` (all of `s` when it is shorter). */
  function Tail(s: string, n: nat): (r: string)
    ensures |r| == if |s| <= n then |s| else n
    ensures r == s[|s| - |r|..]
  {
    if |s| <= n then s else s[|s| - n..]
  }

  /**
   * The output buffer after inserting `piece` at its end and then erasing
   * the oldest characters beyond `MAX_OUTPUT_BUFFER_SIZE`.
   */
  function Appended(output: string, piece: string): string
  {
    Tail(output + piece, MaxOutputBufferSize)
  }

  /**
   * After an append the buffer holds at most `MAX_OUTPUT_BUFFER_SIZE`
   * characters: all of old text and new text when they fit, otherwise
   * exactly the last `MAX_OUTPUT_BUFFER_SIZE` of them.
   */
  lemma AppendKeepsLast(output: string, piece: string)
    ensures var r := Appended(output, piece); r == (output + piece)[|output + piece| - |r|..]
    ensures |Appended(output, piece)| <= MaxOutputBufferSize
    ensures |output + piece| <= MaxOutputBufferSize ==> Appended(output, piece) == output + piece
    ensures |output + piece| > MaxOutputBufferSize ==> |Appended(output, piece)| == MaxOutputBufferSize
  {
  }

  /** A piece no longer than the limit is always entirely visible at the end of the buffer. */
  lemma AppendShowsNewest(output: string, piece: string)
    requires |piece| <= MaxOutputBufferSize
    ensures var r := Appended(output, piece); |r| >= |piece| && r[|r| - |piece|..] == piece
  {
    var buffer := output + piece;
    var r := Appended(output, piece);
    assert r == buffer[|buffer| - |r|..];
    assert buffer[|buffer| - |piece|..] == piece;
  }

  /** Everything appended to an empty buffer, oldest first. */
  function History(pieces: seq<string>): string
    decreases |pieces|
  {
    if pieces == [] then "" else History(pieces[..|pieces| - 1]) + pieces[|pieces| - 1]
  }

  /** The buffer after appending each piece in turn. */
  function AppendAll(output: string, pieces: seq<string>): string
    decreases |pieces|
  {
    if pieces == [] then output else Appended(AppendAll(output, pieces[..|pieces| - 1]), pieces[|pieces| - 1])
  }

  lemma TailOfTail(h: string, p: string, n: nat)
    ensures Tail(Tail(h, n) + p, n) == Tail(h + p, n)
  {
    var t := Tail(h, n);
    var a := Tail(t + p, n);
    var b := Tail(h + p, n);
    assert |a| == |b|;
    forall i | 0 <= i < |a| ensures a[i] == b[i] {
      var k := |t + p| - |a| + i;
      assert a[i] == (t + p)[k];
      if k < |t| {
        assert (t + p)[k] == h[|h| - |t| + k];
        assert b[i] == (h + p)[|h + p| - |b| + i];
      } else {
        assert (t + p)[k] == p[k - |t|];
      }
    }
  }

  /**
   * Trimming after every append keeps exactly what trimming once at the
   * end would: the buffer is always the last `MAX_OUTPUT_BUFFER_SIZE`
   * characters of everything appended since it was last emptied.
   */
  lemma {:induction false} BufferIsTailOfHistory(pieces: seq<string>)
    ensures AppendAll("", pieces) == Tail(History(pieces), MaxOutputBufferSize)
    decreases |pieces|
  {
    if pieces != [] {
      var init := pieces[..|pieces| - 1];
      var last := pieces[|pieces| - 1];
      BufferIsTailOfHistory(init);
      AppendKeepsLast(AppendAll("", init), last);
      TailOfTail(History(init), last, MaxOutputBufferSize);
    }
  }

  /** A file `save` writes: its path and its contents. */
  datatype FileWrite = FileWrite(path: string, text: string)

  /**
   * `save(path, text)`: writes only non-empty text. The stream does not
   * have exceptions enabled, so the `catch` never runs and the result is
   * always `true`.
   */
  function Save(path: string, text: string): (bool, Option<FileWrite>)
  {
    (true, if text != "" then Some(FileWrite(path, text)) else None)
  }

  /** `save` reports success for empty text without writing, and writes any other text in full. */
  lemma SaveEmptyText(path: string, text: string)
    ensures Save(path, text).0
    ensures Save(path, text).1 == None <==> text == ""
    ensures text != "" ==> Save(path, text).1 == Some(FileWrite(path, text))
  {
  }

  function Written(w: Option<FileWrite>): seq<FileWrite>
  {
    if w.Some? then [w.value] else []
  }

  /** The label set after saving one file under `folder`. */
  function SaveLabel(ok: bool, folder: string, file: string): string
  {
    if ok then "Save in " + folder + " ... " + file else FailedSaveLabel
  }

  /** The panes after `on_menu_file_save`, the files it writes, and whether it asked for a folder. */
  datatype SaveResult = SaveResult(panes: Panes, writes: seq<FileWrite>, askedForFolder: bool)

  /** `on_menu_file_save` with the folder `m_path` holds. */
  function SaveAll(p: Panes, folder: string): SaveResult
  {
    if p.input == "" then SaveResult(p.(inputLabel := EmptyInputLabel), [], false)
    else if p.output == "" then SaveResult(p.(outputLabel := EmptyOutputLabel), [], false)
    else
      var (okInput, wInput) := Save(folder + "/" + CommandsFile, p.input);
      var (okOutput, wOutput) := Save(folder + "/" + ResultFile, p.output);
      SaveResult(
        p.(inputLabel := SaveLabel(okInput, folder, CommandsFile),
           outputLabel := SaveLabel(okOutput, folder, ResultFile)),
        Written(wInput) + Written(wOutput),
        folder == "")
  }

  /** With an empty pane, saving writes nothing and only sets that pane's label. */
  lemma SaveSkipsEmptyPane(p: Panes, folder: string)
    requires p.input == "" || p.output == ""
    ensures SaveAll(p, folder).writes == [] && !SaveAll(p, folder).askedForFolder
    ensures p.input == "" ==> SaveAll(p, folder).panes == p.(inputLabel := EmptyInputLabel)
    ensures p.input != "" ==> SaveAll(p, folder).panes == p.(outputLabel := EmptyOutputLabel)
  {
  }

  /**
   * With both panes non-empty, saving writes the input to
   * `<folder>/terminal_commands.txt` and the output to
   * `<folder>/terminal_result.txt`, and both labels report success.
   */
  lemma SaveWritesBoth(p: Panes, folder: string)
    requires p.input != "" && p.output != ""
    ensures SaveAll(p, folder).writes
      == [FileWrite(folder + "/" + CommandsFile, p.input), FileWrite(folder + "/" + ResultFile, p.output)]
    ensures SaveAll(p, folder).panes.inputLabel == "Save in " + folder + " ... " + CommandsFile
    ensures SaveAll(p, folder).panes.outputLabel == "Save in " + folder + " ... " + ResultFile
    ensures SaveAll(p, folder).panes.input == p.input && SaveAll(p, folder).panes.output == p.output
  {
  }

  /**
   * With no folder chosen yet, saving asks for one but does not wait: it
   * writes `/terminal_commands.txt` and `/terminal_result.txt` at once.
   */
  lemma SaveWithoutFolderWritesAtRoot(p: Panes)
    requires p.input != "" && p.output != ""
    ensures SaveAll(p, "").askedForFolder
    ensures SaveAll(p, "").writes == [FileWrite("/" + CommandsFile, p.input), FileWrite("/" + ResultFile, p.output)]
  {
    SaveWritesBoth(p, "");
    assert "" + "/" == "/";
  }
}
