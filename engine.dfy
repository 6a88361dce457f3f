/** The pure parts of `execute_python` in bot.py: the bytes handed to the
    child's standard input, and the text made of what it printed. Launching
    the interpreter, its pipes and the ten-second deadline belong to the
    operating system and are represented by an `Interpreter` value: the
    outcome the child process reaches when given a script and a standard
    input. */
module Engine {
  import opened Text

  /** TIMEOUT_SECONDS. It documents the deadline only: the model has no clock,
      and the Interpreter outcome `DeadlineExceeded` stands for this deadline
      having passed. */
  const TimeoutSeconds: nat := 10
  /** MAX_OUTPUT_LENGTH. */
  const MaxOutputLength: nat := 3000
  const NoOutput: string := "No output"
  const TruncationMarker: string := "\n...output truncated"

  // ---------------------------------------------------------------------
  // Standard input
  // ---------------------------------------------------------------------

  /** Python's `sep.join(parts)`: it begins with the first part, and every
      further part adds the separator and that part. */
  function Join(sep: string, parts: seq<string>): (r: string)
    ensures parts != [] ==> |parts[0]| <= |r| && r[..|parts[0]|] == parts[0]
    ensures |parts| > 1 ==> r[|parts[0]|..] == sep + Join(sep, parts[1..])
    decreases |parts|
  {
    if parts == [] then ""
    else if |parts| == 1 then parts[0]
    else parts[0] + sep + Join(sep, parts[1..])
  }

  /** Every part followed by a line feed, in order. */
  function Terminated(parts: seq<string>): string
    decreases |parts|
  {
    if parts == [] then "" else parts[0] + "\n" + Terminated(parts[1..])
  }

  lemma {:induction false} JoinThenNewline(parts: seq<string>)
    requires parts != []
    ensures Join("\n", parts) + "\n" == Terminated(parts)
    decreases |parts|
  {
    if |parts| > 1 {
      JoinThenNewline(parts[1..]);
      assert Join("\n", parts) + "\n" == parts[0] + "\n" + (Join("\n", parts[1..]) + "\n");
    }
  }

  /** `stdin_data`: nothing when there are no inputs, otherwise every input
      followed by a line feed, concatenated in order. */
  function StdinPayload(inputs: seq<string>): (r: Option<string>)
    ensures r.None? <==> inputs == []
    ensures r.Some? ==> r.value == Terminated(inputs)
  {
    if inputs == [] then None
    else
      JoinThenNewline(inputs);
      Some(Join("\n", inputs) + "\n")
  }

  /** The end of the first line of `buf`: its first line feed, or its end. */
  function LineEnd(buf: string): (n: nat)
    ensures n <= |buf|
    ensures forall k :: 0 <= k < n ==> buf[k] != '\n'
    ensures n == |buf| || buf[n] == '\n'
  {
    if buf == [] || buf[0] == '\n' then 0 else 1 + LineEnd(buf[1..])
  }

  /** What successive `input()` calls of the child read from `buf`: each
      returns the text up to the next line feed, without it; once the buffer
      is exhausted `input()` raises EOFError, which ends the list. */
  function InputLines(buf: string): seq<string>
    decreases |buf|
  {
    if buf == [] then []
    else
      var n := LineEnd(buf);
      if n == |buf| then [buf] else [buf[..n]] + InputLines(buf[n + 1..])
  }

  predicate IsSingleLine(x: string) {
    forall k :: 0 <= k < |x| ==> x[k] != '\n'
  }

  /** The child's k-th `input()` call reads the k-th input, provided no input
      contains a line feed. (On POSIX the child's standard input splits lines
      at line feeds only, so a carriage return is read back unchanged.) */
  lemma {:induction false} PayloadReadsBack(inputs: seq<string>)
    requires forall i :: 0 <= i < |inputs| ==> IsSingleLine(inputs[i])
    ensures InputLines(Terminated(inputs)) == inputs
    decreases |inputs|
  {
    if inputs != [] {
      var buf := Terminated(inputs);
      var x := inputs[0];
      assert buf == x + ("\n" + Terminated(inputs[1..]));
      assert buf[|x|] == '\n';
      assert LineEnd(buf) == |x| by {
        forall k | 0 <= k < |x| ensures buf[k] != '\n' { assert buf[k] == x[k]; }
      }
      assert buf[..|x|] == x;
      assert buf[|x| + 1..] == Terminated(inputs[1..]);
      PayloadReadsBack(inputs[1..]);
    }
  }

  // ---------------------------------------------------------------------
  // Output
  // ---------------------------------------------------------------------

  /** `(stdout + stderr).decode() or "No output"`: standard output followed
      by standard error, or the placeholder when both are empty. */
  function CombinedOutput(stdout: string, stderr: string): (r: string)
    ensures r != []
    ensures stdout + stderr != [] ==> r == stdout + stderr
    ensures stdout + stderr == [] ==> r == NoOutput
  {
    if stdout + stderr == [] then NoOutput else stdout + stderr
  }

  /** Cutting an output longer than MAX_OUTPUT_LENGTH down to its first
      MAX_OUTPUT_LENGTH characters and appending the truncation marker. */
  function Truncate(output: string): (r: string)
    ensures |output| <= MaxOutputLength ==> r == output
    ensures |output| > MaxOutputLength ==>
      && |r| == MaxOutputLength + |TruncationMarker|
      && r[..MaxOutputLength] == output[..MaxOutputLength]
      && r[MaxOutputLength..] == TruncationMarker
  {
    if |output| > MaxOutputLength then output[..MaxOutputLength] + TruncationMarker else output
  }

  /** The text `execute_python` returns for a child that finished: never
      empty, never longer than the bound plus the marker, and beginning with
      as much of what the child printed as the bound allows. */
  function FormatOutput(stdout: string, stderr: string): (r: string)
    ensures 0 < |r| <= MaxOutputLength + |TruncationMarker|
    ensures stdout + stderr == [] ==> r == NoOutput
    ensures var c := stdout + stderr;
      c != [] ==> (
        && (|c| <= MaxOutputLength ==> r == c)
        && (|c| > MaxOutputLength ==> |r| == MaxOutputLength + |TruncationMarker| && r[..MaxOutputLength] == c[..MaxOutputLength] && r[MaxOutputLength..] == TruncationMarker))
  {
    Truncate(CombinedOutput(stdout, stderr))
  }

  /** What a run of the script reaches: the child finished with these
      outputs, it was still running at the deadline, it could not be started
      (or its output could not be read), or, whatever the child did, removing
      the script file in `finally` failed (the script deleted or renamed its
      own file), which replaces the result by the removal's exception. */
  datatype Completion = Finished(stdout: string, stderr: string) | DeadlineExceeded | LaunchFailed | CleanupFailed

  /** The operating system's side of `execute_python`: the outcome of
      running a script file with the given standard input (None: the
      standard input is closed without data). */
  type Interpreter = (string, Option<string>) -> Completion

  /** What `execute_python` gives its caller: the output text, or the
      exception it raises (`asyncio.TimeoutError` or any other). */
  datatype Outcome = Output(text: string) | TimeoutError | OtherError

  /** `execute_python(code, inputs)`. */
  function Execute(interpreter: Interpreter, code: string, inputs: seq<string>): (o: Outcome)
    ensures var c := interpreter(code, StdinPayload(inputs));
      && (o.Output? <==> c.Finished?)
      && (o.TimeoutError? <==> c.DeadlineExceeded?)
      && (o.OtherError? <==> c.LaunchFailed? || c.CleanupFailed?)
      && (o.Output? ==> o.text == FormatOutput(c.stdout, c.stderr))
  {
    match interpreter(code, StdinPayload(inputs))
    case Finished(stdout, stderr) => Output(FormatOutput(stdout, stderr))
    case DeadlineExceeded => TimeoutError
    case LaunchFailed => OtherError
    case CleanupFailed => OtherError
  }
}
