/** One requester's conversation with the bot: the FSM states of `RunState`,
    the data dictionary the handlers keep in their FSMContext, and the effect
    of each handler of bot.py on them. The handlers are given here as pure
    transitions; the class in bot.dfy performs them step by step on a store
    of sessions and is proved to agree with them. */
module Sessions {
  import opened Text
  import Analyzer
  import Engine

  type RequesterId = int

  /** The FSM state: None (Idle) or one of the three states of `RunState`. */
  datatype Phase = Idle | WaitingForCode | WaitingForInputCount | WaitingForInput

  /** A requester's FSM state and the keys of its data dictionary (None: the
      key is absent). */
  datatype Session = Session(phase: Phase, code: Option<string>, inputs: Option<seq<string>>, inputCount: Option<int>)

  /** The session after `state.clear()`, and the session of a requester never heard from. */
  const Cleared: Session := Session(Idle, None, None, None)

  /** The session right after /run. */
  const AwaitingCode: Session := Session(WaitingForCode, None, None, None)

  /** The invariant every handler keeps. Idle means nothing is kept; while
      awaiting input at least one input is still missing. */
  predicate Valid(s: Session) {
    match s.phase
    case Idle => s == Cleared
    case WaitingForCode => s == AwaitingCode
    case WaitingForInputCount =>
      s.code.Some? && s.inputs == Some([]) && s.inputCount.Some? && s.inputCount.value >= 1
    case WaitingForInput =>
      && s.code.Some? && s.inputs.Some? && s.inputCount.Some?
      && s.inputCount.value >= 1 && |s.inputs.value| < s.inputCount.value
  }

  datatype Command = Start | Help | Cancel | Run

  /** What the transport delivers: a command (/start, /help, /cancel, /run)
      or any other text. */
  datatype Message = CommandMessage(command: Command) | TextMessage(text: string)

  /** The messages the bot answers with, by the information they convey. */
  datatype Reply =
    | Welcome
    | Usage
    | NothingToCancel
    | Cancelled
    | AskForCode
    | AskForInputCount
    | InvalidInputCount
      /** "I will collect `total` inputs", together with the prompt for input 1 of `total`. */
    | CountAccepted(total: int)
    | AskForInput(ordinal: int, total: int)
    | Running
    | ShowOutput(text: string)
    | TimedOutNotice

  /** One call of `execute_python`. */
  datatype EngineCall = EngineCall(code: string, inputs: seq<string>)

  /** The effect of handling one message: the new session, the replies sent,
      and the engine calls made. */
  datatype Transition = Transition(after: Session, replies: seq<Reply>, runs: seq<EngineCall>)

  // ---------------------------------------------------------------------
  // Commands (no state filter)
  // ---------------------------------------------------------------------

  /** `start_cmd`: Idle with no data, from any session. */
  function StartCommand(s: Session): (t: Transition)
    ensures Valid(t.after) && t.after.phase == Idle
    ensures t.runs == []
  {
    Transition(Cleared, [Welcome], [])
  }

  /** `help_cmd`: the session is left as it is. */
  function HelpCommand(s: Session): (t: Transition)
    ensures t.after == s
    ensures t.runs == []
  {
    Transition(s, [Usage], [])
  }

  /** `cancel_cmd`: the session ends Idle; it reports that there was nothing
      to cancel exactly when it was Idle already. */
  function CancelCommand(s: Session): (t: Transition)
    ensures Valid(s) ==> Valid(t.after)
    ensures t.after.phase == Idle
    ensures t.replies == [NothingToCancel] <==> s.phase == Idle
    ensures t.runs == []
  {
    if s.phase == Idle then Transition(s, [NothingToCancel], [])
    else Transition(Cleared, [Cancelled], [])
  }

  /** `run_cmd`: whatever was in progress, the session awaits code with no data. */
  function RunCommand(s: Session): (t: Transition)
    ensures Valid(t.after) && t.after.phase == WaitingForCode
    ensures t.runs == []
  {
    Transition(AwaitingCode, [AskForCode], [])
  }

  // ---------------------------------------------------------------------
  // The conversation (state-filtered handlers)
  // ---------------------------------------------------------------------

  /** The replies after "Running your program...": the output, the timeout
      notice, or nothing when another exception escapes the handler. */
  function Report(o: Engine.Outcome): (r: seq<Reply>)
    ensures |r| <= 1
    ensures r == [] <==> o.OtherError?
  {
    match o
    case Output(text) => [ShowOutput(text)]
    case TimeoutError => [TimedOutNotice]
    case OtherError => []
  }

  /** Running the program and clearing the session in `finally`. */
  function Execution(code: string, inputs: seq<string>, interpreter: Engine.Interpreter): (t: Transition)
    ensures Valid(t.after) && t.after.phase == Idle
    ensures t.runs == [EngineCall(code, inputs)]
    ensures 1 <= |t.replies| <= 2 && t.replies[0] == Running
  {
    Transition(Cleared, [Running] + Report(Engine.Execute(interpreter, code, inputs)), [EngineCall(code, inputs)])
  }

  /** `receive_code`: from any session, a valid one; the engine runs
      (exactly once) iff the session ends Idle, and otherwise the stripped
      code is kept with no inputs collected yet. */
  function ReceiveCode(s: Session, text: string, interpreter: Engine.Interpreter): (t: Transition)
    ensures Valid(t.after)
    ensures |t.runs| <= 1
    ensures t.runs != [] <==> t.after.phase == Idle
    ensures t.after.phase != Idle ==> t.after.code == Some(Strip(text)) && t.after.inputs == Some([])
  {
    var code := Strip(text);
    var detected := Analyzer.CountInputs(code);
    var stored := s.(code := Some(code), inputs := Some([]), inputCount := Some(detected));
    if detected > 0 && Analyzer.HasLoop(code) then
      Transition(stored.(phase := WaitingForInputCount), [AskForInputCount], [])
    else if detected == 0 then
      Execution(code, [], interpreter)
    else
      Transition(stored.(phase := WaitingForInput), [AskForInput(1, detected)], [])
  }

  /** `receive_input_count`: the session is unchanged, or it awaits input
      with the same code and inputs and a total of at least 1. */
  function ReceiveInputCount(s: Session, text: string): (t: Transition)
    ensures Valid(s) && s.phase == WaitingForInputCount ==> Valid(t.after)
    ensures t.after == s || (&& t.after.phase == WaitingForInput && t.after.code == s.code && t.after.inputs == s.inputs
                             && t.after.inputCount.Some? && t.after.inputCount.value >= 1)
    ensures t.runs == []
  {
    match ParseInt(Strip(text))
    case Some(count) =>
      if count <= 0 then Transition(s, [InvalidInputCount], [])
      else Transition(s.(inputCount := Some(count), phase := WaitingForInput), [CountAccepted(count)], [])
    case None => Transition(s, [InvalidInputCount], [])
  }

  /** `receive_input`; the data keys it reads are present in every state
      that reaches it. */
  function ReceiveInput(s: Session, text: string, interpreter: Engine.Interpreter): (t: Transition)
    requires s.code.Some? && s.inputs.Some? && s.inputCount.Some?
    ensures Valid(s) && s.phase == WaitingForInput ==> Valid(t.after)
    ensures t.runs == [] ==> t.after.inputs == Some(s.inputs.value + [Strip(text)])
    ensures t.runs != [] ==> t.after == Cleared && t.runs == [EngineCall(s.code.value, s.inputs.value + [Strip(text)])]
    ensures |t.runs| <= 1
  {
    var inputs := s.inputs.value + [Strip(text)];
    var count := s.inputCount.value;
    if |inputs| < count then
      Transition(s.(inputs := Some(inputs)), [AskForInput(|inputs| + 1, count)], [])
    else
      Execution(s.code.value, inputs, interpreter)
  }

  /** The dispatcher: command handlers first, in registration order and in
      every state; then the handler whose state filter matches; plain text
      while Idle matches no handler. Every handler keeps the invariant, makes
      at most one engine call, and a session that made one is cleared. */
  function Dispatch(s: Session, m: Message, interpreter: Engine.Interpreter): (t: Transition)
    requires Valid(s)
    ensures Valid(t.after)
    ensures |t.runs| <= 1
    ensures t.runs != [] ==> t.after == Cleared
  {
    match m
    case CommandMessage(Start) => StartCommand(s)
    case CommandMessage(Help) => HelpCommand(s)
    case CommandMessage(Cancel) => CancelCommand(s)
    case CommandMessage(Run) => RunCommand(s)
    case TextMessage(text) =>
      match s.phase
      case Idle => Transition(s, [], [])
      case WaitingForCode => ReceiveCode(s, text, interpreter)
      case WaitingForInputCount => ReceiveInputCount(s, text)
      case WaitingForInput => ReceiveInput(s, text, interpreter)
  }

  /** One requester's messages handled one at a time, in arrival order. */
  function Replay(s: Session, messages: seq<Message>, interpreter: Engine.Interpreter): (t: Transition)
    requires Valid(s)
    ensures Valid(t.after)
    decreases |messages|
  {
    if messages == [] then Transition(s, [], [])
    else
      var first := Dispatch(s, messages[0], interpreter);
      var rest := Replay(first.after, messages[1..], interpreter);
      Transition(rest.after, first.replies + rest.replies, first.runs + rest.runs)
  }

  function TextMessages(texts: seq<string>): (ms: seq<Message>)
    ensures |ms| == |texts|
  {
    seq(|texts|, i requires 0 <= i < |texts| => TextMessage(texts[i]))
  }

  function StripAll(texts: seq<string>): (r: seq<string>)
    ensures |r| == |texts|
  {
    seq(|texts|, i requires 0 <= i < |texts| => Strip(texts[i]))
  }
}
