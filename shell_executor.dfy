/**
 * `Interpreter::execute_bash`: run a command line through `popen`, read its
 * output with `fgets` into a 128-byte buffer until end of stream, and check
 * the status `pclose` returns.
 *
 * The operating system is an oracle: for a command line it says whether the
 * pipe could be opened and, if so, the whole text the process wrote and the
 * (raw, opaque) status `pclose` reported.
 */
module ShellExecutor {
  import opened Cpp

  /** What `popen` ... `pclose` yields for one command line. */
  datatype Pipe = OpenFailed | Finished(stream: string, status: int)

  /** `std::array<char, 128> buffer`: `fgets` stores at most 127 characters and a NUL. */
  const BufferSize: nat := 128

  const OpenFailedMessage := "Failed to execute command"

  /** The message thrown for a non-zero `pclose` status. */
  function StatusMessage(status: int): string
  {
    "Command execution failed with status " + IntToString(status) + "\n"
  }

  /**
   * The characters one `fgets` call takes from the front of `rest`: up to
   * `limit` characters, stopping after the first newline.
   */
  function LineUpTo(rest: string, limit: nat): (c: string)
    ensures |c| <= limit && |c| <= |rest| && c == rest[..|c|]
    ensures limit > 0 && rest != [] ==> |c| > 0
  {
    if rest == [] || limit == 0 then []
    else if rest[0] == '\n' then [rest[0]]
    else [rest[0]] + LineUpTo(rest[1..], limit - 1)
  }

  /**
   * A chunk holds no newline but possibly its last character, and it ends
   * in a newline unless it filled the buffer or exhausted the stream.
   */
  lemma {:induction false} LineUpToStopsAtNewline(rest: string, limit: nat)
    ensures var c := LineUpTo(rest, limit);
      (forall i :: 0 <= i < |c| - 1 ==> c[i] != '\n')
      && (|c| < limit && |c| < |rest| ==> |c| > 0 && c[|c| - 1] == '\n')
    decreases limit
  {
    if rest != [] && limit != 0 && rest[0] != '\n' {
      LineUpToStopsAtNewline(rest[1..], limit - 1);
      var c := LineUpTo(rest, limit);
      var tail := LineUpTo(rest[1..], limit - 1);
      assert c == [rest[0]] + tail;
      assert forall i :: 1 <= i < |c| ==> c[i] == tail[i - 1];
    }
  }

  /** One `fgets(buffer.data(), buffer.size(), pipe)` once `pos` characters of the stream were read. */
  function NextChunk(stream: string, pos: nat): (c: string)
    requires pos < |stream|
    ensures 0 < |c| < BufferSize && pos + |c| <= |stream| && c == stream[pos..pos + |c|]
  {
    LineUpTo(stream[pos..], BufferSize - 1)
  }

  /**
   * What the loop `result += buffer.data()` accumulates from position `pos`
   * on: each chunk `fgets` reads, seen through `const char*`.
   */
  function DrainFrom(stream: string, pos: nat): (r: string)
    requires pos <= |stream|
    ensures |r| <= |stream| - pos
    decreases |stream| - pos
  {
    if pos == |stream| then []
    else
      var c := NextChunk(stream, pos);
      CString(c) + DrainFrom(stream, pos + |c|)
  }

  /** One turn of the read loop: the chunk at `pos`, then everything after it. */
  lemma DrainStep(stream: string, pos: nat)
    requires pos < |stream|
    ensures var c := NextChunk(stream, pos);
      DrainFrom(stream, pos) == CString(c) + DrainFrom(stream, pos + |c|)
  {
  }

  /** Moving one chunk from what is still to be read onto what was read keeps the total. */
  lemma DrainAdvance(stream: string, pos: nat, result: string)
    requires pos < |stream|
    ensures var c := NextChunk(stream, pos);
      result + DrainFrom(stream, pos) == (result + CString(c)) + DrainFrom(stream, pos + |c|)
  {
    var c := NextChunk(stream, pos);
    DrainStep(stream, pos);
    ConcatAssociative(result, CString(c), DrainFrom(stream, pos + |c|));
  }

  /** What the read loop accumulates from the whole stream. */
  function Drain(stream: string): string
  {
    DrainFrom(stream, 0)
  }

  /** The text `execute_bash` returns or the message it throws. */
  function BashOutcome(pipe: Pipe): Outcome
  {
    match pipe
    case OpenFailed => Threw(OpenFailedMessage)
    case Finished(stream, status) =>
      if status != 0 then Threw(StatusMessage(status)) else Returned(Drain(stream))
  }

  lemma SliceSplit(s: string, a: nat, b: nat)
    requires a <= b <= |s|
    ensures s[a..] == s[a..b] + s[b..]
    ensures '\0' !in s ==> '\0' !in s[a..b] && '\0' !in s[b..]
  {
    assert forall x :: x in s[a..b] ==> x in s;
    assert forall x :: x in s[b..] ==> x in s;
  }

  lemma {:induction false} DrainFromWithoutNul(stream: string, pos: nat)
    requires pos <= |stream| && '\0' !in stream
    ensures DrainFrom(stream, pos) == stream[pos..]
    decreases |stream| - pos
  {
    if pos < |stream| {
      var c := NextChunk(stream, pos);
      var next := pos + |c|;
      SliceSplit(stream, pos, next);
      CStringWithoutNul(c);
      DrainStep(stream, pos);
      DrainFromWithoutNul(stream, next);
      calc {
        DrainFrom(stream, pos);
        CString(c) + DrainFrom(stream, next);
        c + stream[next..];
        stream[pos..];
      }
    }
  }

  /** When the process writes no NUL, the result is its output, in order and complete. */
  lemma DrainWithoutNul(stream: string)
    requires '\0' !in stream
    ensures Drain(stream) == stream
  {
    DrainFromWithoutNul(stream, 0);
    assert stream[0..] == stream;
  }

  /** A successful run returns exactly what the process wrote (when it wrote no NUL). */
  lemma SuccessReturnsOutput(stream: string)
    requires '\0' !in stream
    ensures BashOutcome(Finished(stream, 0)) == Returned(stream)
  {
    DrainWithoutNul(stream);
  }

  /** A failing run throws, and the status can be read back from the message. */
  lemma FailureReportsStatus(stream: string, status: int)
    requires status != 0
    ensures BashOutcome(Finished(stream, status)).Threw?
    ensures var m := BashOutcome(Finished(stream, status)).message;
      var prefix := "Command execution failed with status ";
      |m| > |prefix| + 1 && m[..|prefix|] == prefix && m[|m| - 1] == '\n'
      && ParseInt(m[|prefix|..|m| - 1]) == Some(status)
  {
    var m := StatusMessage(status);
    var prefix := "Command execution failed with status ";
    assert m[|prefix|..|m| - 1] == IntToString(status);
    IntToStringRoundTrip(status);
  }

  /**
   * The read loop of `execute_bash`: as long as `fgets` fills the buffer,
   * append the buffer, as a C string, to the result.
   */
  method ReadAll(stream: string) returns (result: string)
    ensures result == Drain(stream)
  {
    result := "";
    var pos := 0;
    while pos < |stream|
      invariant 0 <= pos <= |stream|
      invariant result + DrainFrom(stream, pos) == Drain(stream)
      decreases |stream| - pos
    {
      var chunk := NextChunk(stream, pos);
      DrainAdvance(stream, pos, result);
      result := result + CString(chunk);
      pos := pos + |chunk|;
    }
    assert DrainFrom(stream, pos) == [];
  }

  /**
   * `Interpreter::execute_bash(command)`. `system` says what the operating
   * system does with the command line `popen` receives.
   */
  method ExecuteBash(command: string, system: string -> Pipe) returns (r: Outcome)
    ensures r == BashOutcome(system(CString(command)))
  {
    var pipe := system(CString(command));
    if pipe.OpenFailed? {
      return Threw(OpenFailedMessage);
    }
    var result := ReadAll(pipe.stream);
    var status := pipe.status;
    if status != 0 {
      return Threw(StatusMessage(status));
    }
    return Returned(result);
  }
}
