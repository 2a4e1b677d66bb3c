# Terminal_GTKmm, modelled in Dafny

Terminal_GTKmm is a small GTKmm 4 desktop terminal. It comes in two builds:

- **The multi-language window** (`Terminal_GTKmm/`). It sends the input pane's text to Bash, Python or Lua through the `Interpreter` class, then appends what comes back to an output pane.
- **The older Bash-only window** (`src/`). It sends every command to the shell.

Both windows keep the output pane to its last 100000 characters. Both can save the two panes as `terminal_commands.txt` and `terminal_result.txt` in a chosen folder.

The model has these modules:

- `Cpp`: the C++ conversions the code depends on.
  - `CString`: reading a `std::string` through `const char*` stops at the first NUL.
  - `IntToString`: `std::to_string`. `ParseInt` is its inverse.
  - `Outcome`: a value returned, or an exception thrown with a message.
- `ShellExecutor`: `execute_bash`. It covers the `fgets` loop over a 128-byte buffer and the `pclose` status check.
- `PythonExecutor`: `execute_python` and the process-wide Python runtime it drives.
  - That runtime is the class `Runtime`.
  - It has lazy `Py_Initialize`, a shared `__main__` dictionary, and `sys.stdout`/`sys.stderr` redirected to a new `StringIO` on every call and never restored. A program may rebind either stream itself; each run says where it left them.
- `LuaExecutor`: `execute_lua`.
  - It uses a new `lua_State` per call. The host `print` primitive (`Print`) writes into a per-call sink through the registry.
  - On failure it appends an error line.
- `Interpreters`: the pieces of the `Interpreter` class.
  - The `Languages` enum and the `names` table.
  - `language`/`name`, the dispatcher `execute_command`, and the destructor.
- `Panes`: the text state both windows share and the rules both apply to it.
  - Clearing by operation number.
  - Append-then-trim of the output pane.
  - The save guards and save paths.
- `GtkmmTerminal` and `BashTerminal`: the two windows, each as a `Terminal` class.
  - The fields are the ones the handlers update: panes, labels, status bar, interpreter number, path and dialog.
  - Every handler is a method proved against a function on a `View` value of that state.

The shell, Python and Lua are oracles passed in as parameters:

- **Shell:** the shell takes the command line popen receives. It gives back either "popen failed", or the whole text the process wrote plus the raw `pclose` status.
- **Python:** Python takes the `__main__` namespace and the program. It gives back:
  - what the program wrote;
  - whether it raised, and its traceback;
  - the namespace afterwards.

  Flags say which C-API setup steps fail.
- **Lua:** Lua takes the globals and the script. It gives back the argument lists of the `print` calls and how the script ended. A flag says whether `luaL_newstate` succeeds.

Behaviour the model follows from the code, where a description of the program might suggest otherwise:

- `Interpreter::name` builds a temporary `Interpreter`. That temporary's destructor finalizes a live Python runtime.
  - So every status-bar update finalizes Python: at startup, on every interpreter choice, and on every successful File > Open.
  - The next Python call then starts from an empty `__main__` (`Interpreters.NameForgetsPythonDefinitions`).
- The shell's error messages do not include the command text.
- `save` never returns `false`, because the stream does not throw. So the label "There was something wrong!" is never shown.
- File > Save with no folder chosen shows the folder dialog, but does not wait for it. It writes `/terminal_commands.txt` and `/terminal_result.txt` straight away (`Panes.SaveWithoutFolderWritesAtRoot`).
- In the multi-language window, File > Open and File > Save as share one dialog object. The first one created keeps its response handler. After File > Open, File > Save as shows the open dialog again (`GtkmmTerminal.DialogShown`).
- A File > Open that cannot read the file, or does not recognise its suffix, returns before `hide()`. The dialog stays on screen, and `m_path` has already been overwritten (`GtkmmTerminal.OpenRejects`).
- The Lua state gets no standard libraries. The only global a script starts with is the host `print`.
- The multi-language window reads its texts through `data()`, so each stops at its first NUL. The Bash-only window appends output as it is.
- The multi-language window catches `std::exception`. The Bash-only window catches `std::runtime_error`. Both executors only throw `std::runtime_error`.

## Model

| member | source | states |
|---|---|---|
| Cpp.CString | Terminal_GTKmm/src/interpreter.cpp:51 | what a `const char*` view carries: the longest prefix of the string without a NUL, ending where the first NUL was |
| Cpp.CStringWithoutNul | Terminal_GTKmm/src/interpreter.cpp:51 | a string with no NUL passes through `data()`/`c_str()` unchanged |
| Cpp.IntToStringRoundTrip | Terminal_GTKmm/src/interpreter.cpp:62-63 | the text `std::to_string` gives any integer reads back as that integer |
| ShellExecutor.LineUpTo | Terminal_GTKmm/src/interpreter.cpp:56 | one `fgets` takes a prefix of the remaining stream of at most the buffer's capacity, and takes something whenever the stream is not exhausted |
| ShellExecutor.LineUpToStopsAtNewline | Terminal_GTKmm/src/interpreter.cpp:56 | one `fgets` holds no newline before its last character, and when it stops short of both the capacity and the end of the stream, that last character is a newline |
| ShellExecutor.NextChunk | Terminal_GTKmm/src/interpreter.cpp:47-56 | on a non-exhausted stream, `fgets` into the 128-byte buffer reads between 1 and 127 characters from its front |
| ShellExecutor.ReadAll | Terminal_GTKmm/src/interpreter.cpp:56-58 | the `fgets` loop leaves in `result` the in-order concatenation of every chunk read, each cut at its first NUL by `buffer.data()` |
| ShellExecutor.DrainWithoutNul | Terminal_GTKmm/src/interpreter.cpp:56-58 | when the process writes no NUL, the accumulated chunks are exactly its output, complete and in order |
| ShellExecutor.ExecuteBash | Terminal_GTKmm/src/interpreter.cpp:46-67 | the loop's result is the in-order concatenation of the chunks; the call throws "Failed to execute command" when popen fails, throws the status message on a non-zero `pclose`, and otherwise returns the result |
| ShellExecutor.SuccessReturnsOutput | Terminal_GTKmm/src/interpreter.cpp:60-66 | with status 0 and output that holds no NUL, the returned text is the process's whole output (a NUL cuts its chunk short, so output like "a\0b" returns "a") |
| ShellExecutor.FailureReportsStatus | Terminal_GTKmm/src/interpreter.cpp:61-63 | a non-zero status throws "Command execution failed with status " + the status + newline, and the status reads back from the message |
| PythonExecutor.InitializesOnce | Terminal_GTKmm/src/interpreter.cpp:72-74 | over any sequence of calls with no finalization, the runtime is initialized exactly once: by the first call, if it was not live already |
| PythonExecutor.DefinitionsPersist | Terminal_GTKmm/src/interpreter.cpp:77-79 | `__main__`'s dictionary is globals and locals of every call, so the second program runs against the namespace the first left |
| PythonExecutor.ErrorsAreOutput | Terminal_GTKmm/src/interpreter.cpp:98-119 | when what the program wrote and its traceback hold no NUL: a program that raises does not fail the call, its traceback follows its output in the returned text while `sys.stderr` is still the call's StringIO, and a program that pointed `sys.stderr` elsewhere leaves only what it wrote |
| PythonExecutor.RedirectedToFreshSink | Terminal_GTKmm/src/interpreter.cpp:90-99 | after setup succeeds, a StringIO no earlier call made receives `sys.stdout` and `sys.stderr`; the executor never restores them, so afterwards each is that StringIO, not the console, unless the program rebound it, and then it is where the program left it |
| PythonExecutor.FinalizeForgets | Terminal_GTKmm/src/interpreter.cpp:13-18 | after `Py_FinalizeEx`, the next call initializes again and runs against an empty `__main__` |
| PythonExecutor.Runtime.Execute | Terminal_GTKmm/src/interpreter.cpp:69-129 | the runtime and the returned text are those of `Run`: initialize if needed; return the fixed import, StringIO or retrieval error texts; otherwise point both streams at a fresh StringIO, run the program, leave the streams where the program left them, and return what the StringIO captured |
| PythonExecutor.Runtime.FinalizeEx | Terminal_GTKmm/src/interpreter.cpp:16 | finalizing drops the namespace and the redirections |
| LuaExecutor.PrintLine | Terminal_GTKmm/src/interpreter.cpp:141-150 | the line `print` writes always ends in a newline |
| LuaExecutor.Print | Terminal_GTKmm/src/interpreter.cpp:141-162 | the sink the registry points at gains exactly the arguments' texts joined by tabs, then one newline; nothing is written when the slot is empty |
| LuaExecutor.SplitJoin | Terminal_GTKmm/src/interpreter.cpp:144-149 | tab-joined fields without tabs split back into the same fields |
| LuaExecutor.PrintLineFields | Terminal_GTKmm/src/interpreter.cpp:141-150 | for at least one argument, whose texts hold no tab and no newline, a `print` line is one line whose tab-separated fields are the arguments' texts |
| LuaExecutor.PrintNothing | Terminal_GTKmm/src/interpreter.cpp:142-150 | `print()` with no arguments writes just a newline |
| LuaExecutor.FailureAppendsErrorLine | Terminal_GTKmm/src/interpreter.cpp:171-177 | a failed script's output is everything it printed, then "Lua Error: " + the message, or "Unknown error", + newline |
| LuaExecutor.RunPrints | Terminal_GTKmm/src/interpreter.cpp:150-159 | the `print` calls a script makes append their lines to the registered stream, in order, after what it already held |
| LuaExecutor.Execute | Terminal_GTKmm/src/interpreter.cpp:131-182 | returns the fixed state-failure text when no state can be made; otherwise returns the printed lines and the error line; each call uses a fresh state, closed before it returns |
| Interpreters.Language.Value | Terminal_GTKmm/include/interpreter.hpp:23-37 | the enum values DEFAULT=0, BASH=1, PYTHON=2, LUA=3 index the `names` table at each language's own name |
| Interpreters.FromValue | Terminal_GTKmm/include/interpreter.hpp:23-28 | exactly the values 0 to 3 are enumerators |
| Interpreters.NamesAligned | Terminal_GTKmm/src/interpreter.cpp:20-25 | `language(index)` is the language's name for 0 to 3, and "" for every other index, negatives included |
| Interpreters.NameEmptyIff | Terminal_GTKmm/src/interpreter.cpp:20-25 | the name is empty exactly when the index is not BASH, PYTHON or LUA |
| Interpreters.ToSizeT | Terminal_GTKmm/include/interpreter.hpp:32 | the `int` selector becomes a 64-bit `size_t`, unchanged when it is not negative |
| Interpreters.NegativeSelectorUnsupported | Terminal_GTKmm/include/interpreter.hpp:32 | a negative `int` selector converts to a value that names no language |
| Interpreters.UnsupportedSelector | Terminal_GTKmm/src/interpreter.cpp:27-39 | DEFAULT and every value outside 1 to 3 return exactly "Language not supported!" and leave Python alone |
| Interpreters.OnlyPythonChangesRuntime | Terminal_GTKmm/src/interpreter.cpp:27-39 | only PYTHON changes the Python runtime, and only BASH can throw |
| Interpreters.LuaIsIsolated | Terminal_GTKmm/src/interpreter.cpp:131-182 | a Lua call's result does not depend on the Python runtime or on earlier calls |
| Interpreters.ExecuteCommand | Terminal_GTKmm/src/interpreter.cpp:27-39 | BASH, PYTHON and LUA go to their executors, anything else to the fixed text, with the runtime updated as `Execute` says |
| Interpreters.Destroy | Terminal_GTKmm/src/interpreter.cpp:13-18 | the destructor finalizes a live Python runtime, and leaves a finalized one alone |
| Interpreters.Name | Terminal_GTKmm/src/interpreter.cpp:41-44 | `name` returns `language(index)`, and leaves Python finalized because the temporary is destroyed |
| Interpreters.NameForgetsPythonDefinitions | Terminal_GTKmm/src/interpreter.cpp:41-44 | a name lookup between two Python calls makes the second run against an empty `__main__` and initialize Python again |
| Panes.ClearOperations | Terminal_GTKmm/src/terminal.cpp:274-284 | operation 0 is clearing the input and the output, 1 and 2 leave the other pane and its label alone, every other number changes nothing, and clearing twice is clearing once |
| Panes.Tail | Terminal_GTKmm/src/terminal.cpp:403-409 | the trimmed buffer is the last `MAX_OUTPUT_BUFFER_SIZE` characters, or everything when shorter |
| Panes.AppendKeepsLast | Terminal_GTKmm/src/terminal.cpp:378-409 | after an append the buffer is a suffix of old text plus new text of at most 100000 characters: all of it when it fits, exactly 100000 otherwise |
| Panes.AppendShowsNewest | Terminal_GTKmm/src/terminal.cpp:403-409 | a piece of at most 100000 characters is always entirely at the end of the buffer |
| Panes.BufferIsTailOfHistory | Terminal_GTKmm/src/terminal.cpp:403-409 | trimming after every append gives the last 100000 characters of everything appended since the pane was empty |
| Panes.SaveEmptyText | Terminal_GTKmm/src/terminal.cpp:412-424 | `save` reports success always, writes nothing for empty text and all of any other text |
| Panes.SaveSkipsEmptyPane | Terminal_GTKmm/src/terminal.cpp:195-207 | an empty input or output only sets its label and writes nothing |
| Panes.SaveWritesBoth | Terminal_GTKmm/src/terminal.cpp:216-229 | otherwise the input goes to `<path>/terminal_commands.txt`, the output to `<path>/terminal_result.txt`, and both labels report where |
| Panes.SaveWithoutFolderWritesAtRoot | Terminal_GTKmm/src/terminal.cpp:210-229 | with no folder yet, saving asks for one and still writes both files under `/` at once |
| GtkmmTerminal.StatusRule | Terminal_GTKmm/src/terminal.cpp:286-292 | selecting stores the number; the status reads "Interpreter: " + the name for BASH, PYTHON and LUA and "Undefined Interpreter" for every other number |
| GtkmmTerminal.ExtensionOfScript | Terminal_GTKmm/src/terminal.cpp:167-179 | `.py`, `.lua` and `.sh` select PYTHON, LUA and BASH, checked in that order; any other suffix selects nothing, and nothing selects DEFAULT |
| GtkmmTerminal.OpenLoadsScript | Terminal_GTKmm/src/terminal.cpp:156-188 | a readable script clears both panes, selects its interpreter, puts its contents in the input pane and hides the dialog |
| GtkmmTerminal.OpenRejects | Terminal_GTKmm/src/terminal.cpp:156-179 | an unreadable file or unknown suffix changes only the already overwritten path and leaves the dialog up; the alert text returned is that of the local message dialog, which is presented and then destroyed at once by the `return` that follows |
| GtkmmTerminal.ShownTextRule | Terminal_GTKmm/src/terminal.cpp:378-397 | returned text that holds no NUL is shown followed by one newline, an exception's NUL-free message as it is; the shown text never holds a NUL |
| GtkmmTerminal.CommandCutOnce | Terminal_GTKmm/src/terminal.cpp:358-376 | the window passes `data()` of its input and each executor takes `data()` again; running the once-cut input is exactly running the input, for every selector |
| GtkmmTerminal.ExecutionShown | Terminal_GTKmm/src/terminal.cpp:358-409 | executing touches only the output pane, which stays within 100000 characters, is itself plus the shown text when that fits, and always ends with a shown text of at most 100000 characters |
| GtkmmTerminal.FolderSaves | Terminal_GTKmm/src/terminal.cpp:241-249 | every response hides the dialog; accepting a folder stores it whatever the panes hold, then saves both panes there when neither is empty and writes nothing otherwise; cancelling only hides the dialog |
| GtkmmTerminal.Terminal.constructor | Terminal_GTKmm/src/terminal.cpp:22-46 | the window starts with empty panes, the setup labels and BASH selected, and Python finalized |
| GtkmmTerminal.Terminal.OnMenuToolsClear | Terminal_GTKmm/src/terminal.cpp:274-284 | the new state is `Cleared` applied to the panes; nothing else changes |
| GtkmmTerminal.Terminal.OnMenuInterpreter | Terminal_GTKmm/src/terminal.cpp:286-292 | the number and status change as `StatusRule` states, and the Python runtime is finalized |
| GtkmmTerminal.Terminal.AppendToOutput | Terminal_GTKmm/src/terminal.cpp:378-410 | the output pane becomes `Appended` of the old pane and the text, with a newline unless it is an error; nothing else changes |
| GtkmmTerminal.Terminal.OnExecuteCommand | Terminal_GTKmm/src/terminal.cpp:358-376 | empty input only sets the warning label; otherwise the input runs with the selected interpreter and the result or exception message is appended, with the Python runtime updated as the dispatcher says |
| GtkmmTerminal.Terminal.OnMenuFileOpen | Terminal_GTKmm/src/terminal.cpp:135-193 | the dialog is created for File > Open only if none exists, then shown |
| GtkmmTerminal.Terminal.OnMenuFileSaveAs | Terminal_GTKmm/src/terminal.cpp:232-253 | the dialog is created for File > Save as only if none exists, then shown |
| GtkmmTerminal.Terminal.OnMenuFileSave | Terminal_GTKmm/src/terminal.cpp:195-230 | the labels, the dialog and the files written are those of `SaveAll` on the panes and the path |
| GtkmmTerminal.Terminal.OnOpenResponse | Terminal_GTKmm/src/terminal.cpp:153-189 | the state and the alert are those of `Opened`; Python is finalized exactly when a script loads |
| GtkmmTerminal.Terminal.OnFolderResponse | Terminal_GTKmm/src/terminal.cpp:241-249 | the state and files written are those of `FolderChosen` |
| BashTerminal.ExecutedAppends | src/terminal.cpp:235-249 | executing a non-empty input touches only the output pane, which becomes the last 100000 characters of itself plus the shown text |
| BashTerminal.ShownForPipe | src/terminal.cpp:244-247 | status 0 with output that holds no NUL shows the output and a newline; a popen failure shows "Failed to execute command"; another status shows its message |
| BashTerminal.FolderRemembered | src/terminal.cpp:143-152 | every response hides the dialog; accepting a folder stores it whatever the panes hold, saves both panes under it when neither is empty and writes nothing otherwise; a later save writes to the same place, without asking when the folder is not empty; cancelling only hides the dialog |
| BashTerminal.Terminal.constructor | src/terminal.cpp:185-188 | the window starts with empty panes and the setup labels |
| BashTerminal.Terminal.OnMenuToolsClear | src/terminal.cpp:173-183 | the new state is `Cleared` applied to the panes; nothing else changes |
| BashTerminal.Terminal.AppendToOutput | src/terminal.cpp:274-300 | the output pane becomes `Appended` of the old pane and the text as it is, with a newline unless it is an error; nothing else changes |
| BashTerminal.Terminal.OnExecuteCommand | src/terminal.cpp:235-272 | empty input only sets the warning label; otherwise the command runs through `execute_command`, the same `popen` loop and the same two exceptions as `execute_bash`, and its output or error text is appended as `Executed` says |
| BashTerminal.Terminal.OnMenuFileSaveAs | src/terminal.cpp:127-141 | the folder dialog is created once and shown |
| BashTerminal.Terminal.OnMenuFileSave | src/terminal.cpp:91-125 | the labels, the dialog and the files written are those of `SaveAll` on the panes and the path |
| BashTerminal.Terminal.OnFileDialogResponse | src/terminal.cpp:143-152 | on accept with a folder, the path is stored and the panes saved; the dialog is hidden on every response |

## Left out

- GTK widget plumbing is not modelled: widget construction, menus, action wiring, colour tags, scrolling, the About box, Quit and `g_message` logging. Only the state the handlers change is kept. Dialogs are reduced to "created for which handler" and "shown".
- Message dialogs (`Gtk::MessageDialog`) are not modelled as windows. Each is a local that is presented and then destroyed at once when the handler returns; the model returns its text as the alert.
- popen, the Python C API and the Lua C API are foreign code. They are parameters, not models of the shell, Python or Lua.
  - Each call's oracle is a fixed function of what the call passes in.
  - Time, the environment and the file system behind a command are not modelled.
- File reads and writes are left out. `save` returns the write it would make. An open is given the file's contents, or `None` when `std::ifstream` fails.
- ShellExecutor.FailureReportsStatus: the `pclose` result is a raw wait status. It is kept as an opaque integer, and the lemma does not claim that it equals the command's exit code.
- LuaExecutor.Print: only strings and numbers may be passed to `print`, as a precondition. For other values `lua_tostring` returns NULL, and the code streams that pointer, which is undefined behaviour.
- LuaExecutor.Execute: writes Lua makes outside `print` (`io.write` and the like) are not captured. They cannot happen without the standard libraries, which are never opened.
- PythonExecutor.Runtime.Execute: `PyErr_Print` on a `SystemExit` exits the whole process. That exit, and the references leaked when only one of `sys`/`io` imports, are not modelled.
- ShellExecutor.NextChunk: chunk boundaries are counted in `char`s, one per character, where `fgets` counts 127 bytes. Output that holds a NUL after multi-byte UTF-8 text is cut into different chunks, so `buffer.data()` keeps different text than the model says; output without a NUL is unaffected (`ShellExecutor.DrainWithoutNul`).
- Panes.AppendKeepsLast: GTK counts characters, C++ strings count bytes. The model uses one `char` per character, so multi-byte UTF-8 text is measured as the buffer measures it, not as `std::string` does.
- `Terminal_GTKmm/src/main.cpp` and `src/main.cpp` only start the application, and are not part of this model.
