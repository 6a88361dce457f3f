# A Dafny model of the Python code-runner bot

`bot.py` is a chat bot that runs a requester's Python script. After `/run` it
takes the code as text and works out how many `input()` calls the script makes.
It then collects that many input texts, one message each, and runs the script
with them on its standard input. If the script calls `input()` inside a loop,
it first asks the requester for the total number of inputs. It replies with
the script's output, trimmed to a bounded length. Each requester's progress
lives in an aiogram FSM context in memory: a state plus the data keys `code`,
`inputs` and `input_count`.

The model has five modules.

- `Text` (text.dfy) models the string operations the handlers rely on:
  - `str.strip()`;
  - `int()` applied to a stripped text;
  - the rendering `int()` is checked against.
- `Analyzer` (analyzer.dfy) models the static analyzer: `count_inputs` and
  `has_loop`. Both are positional scans that follow what Python's regex engine
  does for `\binput\s*\(` (all matches) and `\b(for|while)\b` (first match).
- `Engine` (engine.dfy) models the pure parts of `execute_python`:
  - the standard-input payload;
  - the combined output and its "No output" placeholder;
  - truncation to 3000 characters plus the marker.

  Running the child process is a parameter of type `Interpreter`. It maps a
  script and a standard input to one of four outcomes: finished with this
  stdout and stderr, still running at the deadline, could not be started, or
  removing the script file in `finally` failed. The last happens when the
  script deleted or renamed its own file; `os.remove` then raises
  `FileNotFoundError`, whatever the child did.
- `Sessions` (sessions.dfy) models one requester's session:
  - the FSM state and the data keys;
  - each handler as a transition;
  - the dispatcher `Dispatch`, which honours commands in every state and
    otherwise uses the handler whose state filter matches;
  - `Replay`, which handles a stream of messages.

  `SessionProperties` (session_properties.dfy) proves what a conversation
  guarantees.
- `Bot` (bot.dfy) models the in-memory storage as a class `Dispatcher`:
  - it holds a `map` from requester to session;
  - it keeps a ghost log of every engine call;
  - the FSMContext operations (`get_state`, `get_data`, `clear`,
    `set_state`, `update_data`) are methods on it;
  - each handler is a method that performs those operations in the order
    the source does.

  Each handler method is proved to have exactly the effect of its `Sessions`
  transition on the requester it serves. It leaves every other requester's
  session unchanged.

The character classes are the ASCII parts of Python's own. Whitespace is codes
9-13 and 28-32, as `str.isspace` and the regex class `\s` define it. A word
character is a letter, a digit or `_`.

Two behaviours of bot.py a reader might not expect:

- **Engine errors other than a timeout.** Both running handlers catch only
  `asyncio.TimeoutError` (bot.py:153, bot.py:206). Any other exception from
  `execute_python` escapes after the `finally` block has cleared the session.
  So the requester gets "Running your program..." and then nothing: there is
  no generic failure message. `Sessions.Report` of `OtherError` is the empty
  sequence.
- **The deadline.** `asyncio.wait_for` gives up on `communicate()` after
  `TIMEOUT_SECONDS`, but nothing in the handler kills the child process. The
  model's `DeadlineExceeded` stands only for what the handler sees: a
  `TimeoutError`.

## Model

| member | source | states |
|---|---|---|
| Text.Strip | bot.py:124 | `strip()` removes exactly the leading and trailing whitespace: the result is the slice that starts after the leading whitespace, everything after it is whitespace, its ends are not whitespace, and it is empty iff the text is all whitespace |
| Text.StripPadded | bot.py:124 | however a non-blank text with non-blank ends is padded with whitespace, stripping gives that text back |
| Text.StripTrimmed | bot.py:124 | a text without whitespace at its ends is not changed by stripping |
| Text.StripIdempotent | bot.py:124 | stripping twice is stripping once |
| Text.ParseInt | bot.py:175 | `int()` of a stripped text succeeds iff the text is an optional sign followed by decimal digits; the value is the digits' value, negated after `-` |
| Text.ParseIntRoundTrip | bot.py:175 | `int()` takes back the decimal rendering of every integer |
| Analyzer.MatchInputAt | bot.py:37 | `\binput\s*\(` matches at a position iff an input call starts there; a match ends just after its `(`, with only whitespace between `input` and `(` |
| Analyzer.InputCallsDoNotOverlap | bot.py:37 | no input call starts strictly inside another call's match |
| Analyzer.FindAllFrom | bot.py:37 | `findall`, resuming after each match, finds at most one match per six characters |
| Analyzer.FindAllCountsCallSites | bot.py:37 | the number of matches `findall` returns from a position is the number of input-call start positions from there on |
| Analyzer.CountInputs | bot.py:36-37 | `count_inputs(code)` is the number of `findall` matches from the start of the code, at most one per six characters; what it counts is stated by `Analyzer.CountInputsCountsCallSites` |
| Analyzer.CountInputsCountsCallSites | bot.py:36-37 | `count_inputs(code)` is the number of positions where `input` starts with no word character before it and is followed by optional whitespace and `(` |
| Analyzer.LongerNameNotCounted | bot.py:37 | `myinput(` counts 0 |
| Analyzer.LongerPrefixNotCounted | bot.py:37 | `inputs(` counts 0 |
| Analyzer.SpaceBeforeParenCounted | bot.py:37 | `input (` counts 1 |
| Analyzer.PrintHasNoInputCall | bot.py:37 | `print("hi")` counts 0 |
| Analyzer.SearchLoopFrom | bot.py:41 | `re.search` from a position succeeds iff the loop regex matches (`for` or `while` between word boundaries) at some later position |
| Analyzer.MatchLoopIsWholeWord | bot.py:41 | the regex matches at a position iff `for` or `while` stands there with a non-word character or the edge of the text on both sides |
| Analyzer.HasLoop | bot.py:40-41 | `has_loop(code)` is `re.search` of the loop regex from the start of the code; what it finds is stated by `Analyzer.HasLoopFindsWholeWord` |
| Analyzer.HasLoopFindsWholeWord | bot.py:40-41 | `has_loop(code)` holds iff `for` or `while` occurs in `code` as a whole word |
| Analyzer.NoLoopInsideWords | bot.py:41 | `format`, `forward`, `while_x` and `afor` contain no loop |
| Analyzer.LoopKeywordsFound | bot.py:41 | `for i in range(3):` and `while True:` contain a loop |
| Engine.Join | bot.py:58 | `sep.join(parts)` begins with the first part, and each further part adds the separator followed by the join of the rest |
| Engine.JoinThenNewline | bot.py:58 | `"\n".join(inputs) + "\n"` is every input followed by a line feed |
| Engine.StdinPayload | bot.py:58 | the payload is None iff there are no inputs, otherwise each input followed by a line feed, in order |
| Engine.PayloadReadsBack | bot.py:58 | successive `input()` calls of the child read back exactly the inputs, in order, when none contains a line feed |
| Engine.CombinedOutput | bot.py:65 | the output is stdout followed by stderr, or "No output" when both are empty; never empty |
| Engine.Truncate | bot.py:66-67 | an output of at most 3000 characters is kept; a longer one becomes its first 3000 characters followed by the truncation marker |
| Engine.FormatOutput | bot.py:65-67 | the shown output is never empty and at most 3020 characters long, and it begins with what the child printed, as far as the bound allows |
| Engine.Execute | bot.py:44-72 | `execute_python` returns text iff the child finished and its script file could be removed, raises `TimeoutError` iff the deadline passed, and raises another exception iff the launch or the removal failed; the text is the formatted output of the child run on the script and the payload of the inputs |
| Sessions.StartCommand | bot.py:76-88 | `start_cmd` leaves any session Idle with no data and makes no engine call |
| Sessions.HelpCommand | bot.py:91-101 | `help_cmd` leaves the session as it is and makes no engine call |
| Sessions.CancelCommand | bot.py:104-111 | `cancel_cmd` leaves the session Idle, and reports that there is nothing to cancel exactly when it was Idle already; a valid session stays valid |
| Sessions.RunCommand | bot.py:114-118 | `run_cmd` clears whatever was in progress and awaits code with no data |
| Sessions.Report | bot.py:149-162 | the replies after "Running your program...": one reply (the output or the timeout notice), or none exactly when an exception other than `TimeoutError` escapes |
| Sessions.Execution | bot.py:149-164 | running the program makes exactly one engine call with this code and these inputs, replies "Running your program..." first, and clears the session in `finally` whatever the outcome |
| Sessions.ReceiveCode | bot.py:122-169 | `receive_code` leaves a valid session; it makes an engine call (one) exactly when the session ends Idle, and otherwise keeps the stripped code with no inputs collected yet |
| Sessions.ReceiveInputCount | bot.py:172-187 | `receive_input_count` leaves the session unchanged, or enters WaitingForInput with the same code and inputs and a total of at least 1; it never runs the engine |
| Sessions.ReceiveInput | bot.py:190-214 | `receive_input` either keeps the inputs with the stripped text appended, or clears the session after one engine call on the stored code and all inputs including this one; a valid session stays valid |
| Sessions.Dispatch | bot.py:76-214 | every handler keeps the session invariant: Idle has no data, WaitingForCode has no data, WaitingForInputCount has the code, no inputs and a count of at least 1, and WaitingForInput has at least one input still missing. At most one engine call is made, and a session that made one ends Idle |
| Sessions.Replay | bot.py:122-214 | handling a stream of messages one at a time keeps the session invariant |
| SessionProperties.CommandsInEveryState | bot.py:76-118 | in every state `/run` awaits code, `/start` clears, `/help` changes nothing, and `/cancel` clears unless the session is Idle, in which case it only reports that there is nothing to cancel; no command runs the engine |
| SessionProperties.TextWhileIdleIgnored | bot.py:122-214 | text while Idle matches no handler: nothing changes, there are no replies, nothing runs |
| SessionProperties.CodeWithoutInputsRunsAtOnce | bot.py:147-165 | code without input calls runs exactly once with no inputs, and the session ends Idle without awaiting any input |
| SessionProperties.CodeWithLoopAsksForCount | bot.py:124-145 | code with input calls and a loop stores the stripped code, no inputs and the detected count, and asks for the total |
| SessionProperties.CodeWithFixedInputsAsksFirst | bot.py:124-132 | code with input calls and no loop stores the code, no inputs and the detected count, enters WaitingForInput and asks for input 1 of that count (bot.py:167-169) |
| SessionProperties.InvalidCountChangesNothing | bot.py:174-180 | a non-integer or non-positive count leaves the session unchanged and asks again |
| SessionProperties.PositiveCountOverrides | bot.py:182-187 | a positive count replaces the detected one, keeps the code and the empty inputs, and enters WaitingForInput |
| SessionProperties.InputBelowTotalAsksNext | bot.py:192-200 | while inputs are missing, the stripped text is appended and the next ordinal is asked for |
| SessionProperties.LastInputRunsOnce | bot.py:199-214 | the last missing input runs the stored code once on all inputs and clears the session, whatever the outcome |
| SessionProperties.CollectingKeepsOrder | bot.py:190-200 | fewer texts than are missing are all collected, stripped, in arrival order, and nothing runs |
| SessionProperties.CollectingRunsOnce | bot.py:190-214 | exactly the missing number of texts makes one engine call, on the inputs collected so far followed by the stripped texts in order, and ends Idle |
| SessionProperties.FixedInputsRunOnce | bot.py:122-214 | code with n input calls and no loop, followed by n texts, makes exactly one engine call, with the stripped code and the stripped texts in arrival order, and ends Idle |
| SessionProperties.LoopInputsRunOnce | bot.py:122-214 | code with input calls in a loop, a positive total k and k texts make exactly one engine call with those texts in order, whatever count was detected |
| SessionProperties.ReplayAppend | bot.py:122-214 | handling a stream in two parts is handling it whole: the replies and engine calls concatenate |
| SessionProperties.ResetAlwaysReachesIdle | bot.py:76-111 | after any stream of messages, `/cancel` or `/start` leaves the session Idle |
| SessionProperties.PrintRunsAtOnce | bot.py:147-152 | `print("hi")` runs at once and its output is shown |
| SessionProperties.OneInputReachesStdin | bot.py:58 | with one input call and no loop, the text `5` reaches the child as the standard input "5\n" |
| Bot.Dispatcher.constructor | bot.py:26 | the storage starts empty, with no engine calls |
| Bot.Dispatcher.GetState | bot.py:106 | `get_state` returns the requester's state |
| Bot.Dispatcher.GetData | bot.py:192-194 | `get_data` returns the requester's data keys |
| Bot.Dispatcher.Clear | bot.py:110 | `clear` leaves the requester with no state and no data, and touches nothing else |
| Bot.Dispatcher.SetState | bot.py:117 | `set_state` changes the requester's state and keeps its data |
| Bot.Dispatcher.UpdateData | bot.py:128-132 | `update_data` overwrites the keys it is given and keeps the other keys and the state |
| Bot.Dispatcher.RunEngine | bot.py:151 | the engine call returns what `execute_python` returns, is appended to the log, and leaves the storage unchanged |
| Bot.Dispatcher.StartCommand | bot.py:76-88 | `start_cmd` has the effect of `Sessions.StartCommand` on the requester and leaves other requesters' sessions unchanged |
| Bot.Dispatcher.HelpCommand | bot.py:91-101 | `help_cmd` replies with the usage text and changes no session |
| Bot.Dispatcher.CancelCommand | bot.py:104-111 | `cancel_cmd` has the effect of `Sessions.CancelCommand` on the requester and leaves other requesters' sessions unchanged |
| Bot.Dispatcher.RunCommand | bot.py:114-118 | `run_cmd` has the effect of `Sessions.RunCommand` on the requester and leaves other requesters' sessions unchanged |
| Bot.Dispatcher.ReceiveCode | bot.py:122-169 | `receive_code`, done step by step, has the effect of `Sessions.ReceiveCode`, logs its engine call if it makes one, and keeps the storage invariant |
| Bot.Dispatcher.ReceiveInputCount | bot.py:172-187 | `receive_input_count` has the effect of `Sessions.ReceiveInputCount` and keeps the storage invariant |
| Bot.Dispatcher.ReceiveInput | bot.py:190-214 | `receive_input` has the effect of `Sessions.ReceiveInput`, logs its engine call if it makes one, and keeps the storage invariant |
| Bot.Dispatcher.Handle | bot.py:76-214 | a message changes only its sender's session, in the way `Sessions.Dispatch` describes; the replies are the transition's, and the log grows by exactly its engine calls |

## Left out

- Process control is not modelled: launching the interpreter, its pipes, and the ten-second `asyncio.wait_for`. They are operating-system behaviour and wall-clock time. The `Interpreter` parameter and its four outcomes stand for them.
- The temporary script file is not modelled: creating it and removing it in `finally`. This is file-system I/O. The model has no file, so it does not state that the file is removed on every path; the one effect of the removal on the result, a failed removal turning any outcome into an escaping exception, is the `CleanupFailed` outcome of `Engine.Completion`.
- Byte decoding is not modelled. `.decode()` of the child's output can fail on invalid UTF-8. Standard output and standard error are strings from the start.
- `Text.ParseInt` follows `int()` only for an optional sign and ASCII digits. `int()` also accepts underscores between digits and non-ASCII decimal digits; those texts are refused here.
- Python's Unicode `\w`, `\s` and `str.isspace` are restricted to ASCII, in both the analyzer and `Text.Strip`.
- These are not modelled: the Telegram transport, message wording and Markdown, loading `.env` and `BOT_TOKEN`, `set_my_commands`, `main` and polling. Replies are abstract events (`Sessions.Reply`).
- Concurrency is not modelled. Each requester's messages are handled one at a time, and a message that arrives while an execution is in flight is not modelled.
- Messages without text are not modelled: `message.text` can be None for a photo or a sticker, and such a message would make the handlers raise. The model has text messages and the four commands only.
- `receive_input` appends to the list that `get_data` returned and then stores that list again with `update_data`. The model computes the appended sequence as a value and stores it. Aliasing of the list is not modelled; the stored data comes out the same either way.
- The two timeout notices differ in wording between `receive_code` and `receive_input`. They are one reply, `TimedOutNotice`.
- Analyzer.CountInputs: its own `ensures` states only the bound of one match per six characters; that it counts the call sites is the lemma `Analyzer.CountInputsCountsCallSites`, kept apart because the quantified statement on the function makes the proofs about whole conversations too costly.
- Analyzer.HasLoop: it has no `ensures` of its own; what it finds is the lemma `Analyzer.HasLoopFindsWholeWord`, kept apart for the same reason.
