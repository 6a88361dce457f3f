/** The bot's dispatcher over its in-memory FSM storage: one session per
    requester, the FSMContext operations the handlers of bot.py use on it, and
    the handlers themselves, performed step by step in the order the source
    performs them. Each handler is proved to have exactly the effect of the
    corresponding transition of `Sessions`, on the requester it serves and on
    no other. */
module Bot {
  import opened Text
  import Analyzer
  import Engine
  import opened Sessions

  /** One call of `execute_python`, with the requester whose handler made it. */
  datatype LoggedCall = LoggedCall(requester: RequesterId, call: EngineCall)

  /** The calls a transition of `id`'s session makes, as they appear in the log. */
  function Logged(id: RequesterId, runs: seq<EngineCall>): (r: seq<LoggedCall>)
    ensures |r| == |runs|
    ensures forall i :: 0 <= i < |r| ==> r[i] == LoggedCall(id, runs[i])
  {
    seq(|runs|, i requires 0 <= i < |runs| => LoggedCall(id, runs[i]))
  }

  class Dispatcher {
    /** The MemoryStorage: FSM state and data of every requester heard from. */
    var storage: map<RequesterId, Session>
    /** Every call of the engine made so far, in order. */
    ghost var engineCalls: seq<LoggedCall>

    ghost predicate Valid()
      reads this
    {
      forall id :: id in storage ==> Sessions.Valid(storage[id])
    }

    /** The session of `id`; a requester never heard from has no state and
        no data. */
    function SessionOf(id: RequesterId): Session
      reads this
    {
      if id in storage then storage[id] else Cleared
    }

    /** The handler run for `id` had the effect of transition `t`: `id`'s
        session is `t.after`, every other requester's session is as it was,
        the replies are `t.replies` and the log grew by `t.runs`. */
    twostate predicate Applied(id: RequesterId, t: Transition, replies: seq<Reply>)
      reads this
    {
      && SessionOf(id) == t.after
      && (forall other :: other != id ==> SessionOf(other) == old(SessionOf(other)))
      && replies == t.replies
      && engineCalls == old(engineCalls) + Logged(id, t.runs)
    }

    constructor()
      ensures Valid()
      ensures storage == map[] && engineCalls == []
    {
      storage := map[];
      engineCalls := [];
    }

    // -------------------------------------------------------------------
    // FSMContext
    // -------------------------------------------------------------------

    /** `state.get_state()`. */
    method GetState(id: RequesterId) returns (phase: Phase)
      ensures phase == SessionOf(id).phase
    {
      phase := SessionOf(id).phase;
    }

    /** `state.get_data()`, key by key (None: the key is absent). */
    method GetData(id: RequesterId) returns (code: Option<string>, inputs: Option<seq<string>>, inputCount: Option<int>)
      ensures code == SessionOf(id).code && inputs == SessionOf(id).inputs && inputCount == SessionOf(id).inputCount
    {
      var s := SessionOf(id);
      code, inputs, inputCount := s.code, s.inputs, s.inputCount;
    }

    /** `state.clear()`: no state and no data. */
    method Clear(id: RequesterId)
      modifies this
      ensures storage == old(storage)[id := Cleared]
      ensures engineCalls == old(engineCalls)
    {
      storage := storage[id := Cleared];
    }

    /** `state.set_state(phase)`: the data is kept. */
    method SetState(id: RequesterId, phase: Phase)
      modifies this
      ensures storage == old(storage)[id := old(SessionOf(id)).(phase := phase)]
      ensures engineCalls == old(engineCalls)
    {
      storage := storage[id := SessionOf(id).(phase := phase)];
    }

    /** `state.update_data(...)`: the keys given (Some) are overwritten, the
        others are kept; the state is kept. */
    method UpdateData(id: RequesterId, code: Option<string>, inputs: Option<seq<string>>, inputCount: Option<int>)
      modifies this
      ensures var s := old(SessionOf(id));
        storage == old(storage)[id := Session(s.phase,
                                          if code.Some? then code else s.code,
                                          if inputs.Some? then inputs else s.inputs,
                                          if inputCount.Some? then inputCount else s.inputCount)]
      ensures engineCalls == old(engineCalls)
    {
      var s := SessionOf(id);
      storage := storage[id := Session(s.phase,
                                     if code.Some? then code else s.code,
                                     if inputs.Some? then inputs else s.inputs,
                                     if inputCount.Some? then inputCount else s.inputCount)];
    }

    /** `execute_python(code, inputs)` on behalf of `id`; the call is logged. */
    method RunEngine(id: RequesterId, interpreter: Engine.Interpreter, code: string, inputs: seq<string>) returns (o: Engine.Outcome)
      modifies this
      ensures o == Engine.Execute(interpreter, code, inputs)
      ensures storage == old(storage)
      ensures engineCalls == old(engineCalls) + [LoggedCall(id, EngineCall(code, inputs))]
    {
      o := Engine.Execute(interpreter, code, inputs);
      engineCalls := engineCalls + [LoggedCall(id, EngineCall(code, inputs))];
    }

    // -------------------------------------------------------------------
    // Commands
    // -------------------------------------------------------------------

    /** `start_cmd`. */
    method StartCommand(id: RequesterId) returns (replies: seq<Reply>)
      requires Valid()
      modifies this
      ensures Valid()
      ensures Applied(id, Sessions.StartCommand(old(SessionOf(id))), replies)
    {
      Clear(id);
      replies := [Welcome];
    }

    /** `help_cmd`: it does not touch the FSM context. */
    method HelpCommand(id: RequesterId) returns (replies: seq<Reply>)
      requires Valid()
      modifies this
      ensures Valid()
      ensures Applied(id, Sessions.HelpCommand(old(SessionOf(id))), replies)
    {
      replies := [Usage];
    }

    /** `cancel_cmd`. */
    method CancelCommand(id: RequesterId) returns (replies: seq<Reply>)
      requires Valid()
      modifies this
      ensures Valid()
      ensures Applied(id, Sessions.CancelCommand(old(SessionOf(id))), replies)
    {
      var phase := GetState(id);
      if phase == Idle {
        replies := [NothingToCancel];
        return;
      }
      Clear(id);
      replies := [Cancelled];
    }

    /** `run_cmd`. */
    method RunCommand(id: RequesterId) returns (replies: seq<Reply>)
      requires Valid()
      modifies this
      ensures Valid()
      ensures Applied(id, Sessions.RunCommand(old(SessionOf(id))), replies)
    {
      Clear(id);
      SetState(id, WaitingForCode);
      replies := [AskForCode];
    }

    // -------------------------------------------------------------------
    // The conversation
    // -------------------------------------------------------------------

    /** `receive_code`, registered for WaitingForCode. */
    method ReceiveCode(id: RequesterId, text: string, interpreter: Engine.Interpreter) returns (replies: seq<Reply>)
      requires Valid() && SessionOf(id).phase == WaitingForCode
      modifies this
      ensures Valid()
      ensures Applied(id, Sessions.ReceiveCode(old(SessionOf(id)), text, interpreter), replies)
    {
      var code := Strip(text);
      var detected := Analyzer.CountInputs(code);
      var loopPresent := Analyzer.HasLoop(code);
      UpdateData(id, Some(code), Some([]), Some(detected));
      if detected > 0 && loopPresent {
        SetState(id, WaitingForInputCount);
        replies := [AskForInputCount];
        return;
      }
      if detected == 0 {
        replies := [Running];
        var o := RunEngine(id, interpreter, code, []);
        replies := replies + Report(o);
        Clear(id);
        return;
      }
      SetState(id, WaitingForInput);
      replies := [AskForInput(1, detected)];
    }

    /** `receive_input_count`, registered for WaitingForInputCount. */
    method ReceiveInputCount(id: RequesterId, text: string) returns (replies: seq<Reply>)
      requires Valid() && SessionOf(id).phase == WaitingForInputCount
      modifies this
      ensures Valid()
      ensures Applied(id, Sessions.ReceiveInputCount(old(SessionOf(id)), text), replies)
    {
      var parsed := ParseInt(Strip(text));
      if parsed.None? || parsed.value <= 0 {
        replies := [InvalidInputCount];
        return;
      }
      var count := parsed.value;
      UpdateData(id, None, None, Some(count));
      SetState(id, WaitingForInput);
      replies := [CountAccepted(count)];
    }

    /** `receive_input`, registered for WaitingForInput. */
    method ReceiveInput(id: RequesterId, text: string, interpreter: Engine.Interpreter) returns (replies: seq<Reply>)
      requires Valid() && SessionOf(id).phase == WaitingForInput
      modifies this
      ensures Valid()
      ensures Applied(id, Sessions.ReceiveInput(old(SessionOf(id)), text, interpreter), replies)
    {
      var code, inputs, inputCount := GetData(id);
      var collected := inputs.value + [Strip(text)];
      UpdateData(id, None, Some(collected), None);
      if |collected| < inputCount.value {
        replies := [AskForInput(|collected| + 1, inputCount.value)];
      } else {
        replies := [Running];
        var o := RunEngine(id, interpreter, code.value, collected);
        replies := replies + Report(o);
        Clear(id);
      }
    }

    /** A message from `id`: the command handlers first, then the handler
        whose state filter matches `id`'s state; text while Idle is dropped. */
    method Handle(id: RequesterId, m: Message, interpreter: Engine.Interpreter) returns (replies: seq<Reply>)
      requires Valid()
      modifies this
      ensures Valid()
      ensures Applied(id, Dispatch(old(SessionOf(id)), m, interpreter), replies)
    {
      match m
      case CommandMessage(Start) => replies := StartCommand(id);
      case CommandMessage(Help) => replies := HelpCommand(id);
      case CommandMessage(Cancel) => replies := CancelCommand(id);
      case CommandMessage(Run) => replies := RunCommand(id);
      case TextMessage(text) =>
        var phase := GetState(id);
        match phase
        case Idle => replies := [];
        case WaitingForCode => replies := ReceiveCode(id, text, interpreter);
        case WaitingForInputCount => replies := ReceiveInputCount(id, text);
        case WaitingForInput => replies := ReceiveInput(id, text, interpreter);
    }
  }
}
