/** What the conversation guarantees, stated over `Sessions.Dispatch` (one
    message) and `Sessions.Replay` (a requester's stream of messages). */
module SessionProperties {
  import opened Text
  import Analyzer
  import Engine
  import opened Sessions

  // ---------------------------------------------------------------------
  // Commands
  // ---------------------------------------------------------------------

  /** /run, /start, /help and /cancel are honoured whatever the state: /run
      discards the run in progress and awaits code, /start clears, /help
      changes nothing, /cancel clears unless there is nothing to cancel. No
      command calls the engine. */
  lemma CommandsInEveryState(s: Session, interpreter: Engine.Interpreter)
    requires Valid(s)
    ensures Dispatch(s, CommandMessage(Run), interpreter) == Transition(AwaitingCode, [AskForCode], [])
    ensures Dispatch(s, CommandMessage(Start), interpreter) == Transition(Cleared, [Welcome], [])
    ensures Dispatch(s, CommandMessage(Help), interpreter) == Transition(s, [Usage], [])
    ensures s.phase == Idle ==> Dispatch(s, CommandMessage(Cancel), interpreter) == Transition(s, [NothingToCancel], [])
    ensures s.phase != Idle ==> Dispatch(s, CommandMessage(Cancel), interpreter) == Transition(Cleared, [Cancelled], [])
  {
  }

  /** Text while Idle matches no handler. */
  lemma TextWhileIdleIgnored(text: string, interpreter: Engine.Interpreter)
    ensures Dispatch(Cleared, TextMessage(text), interpreter) == Transition(Cleared, [], [])
  {
  }

  // ---------------------------------------------------------------------
  // Code submission
  // ---------------------------------------------------------------------

  /** Code without input calls runs at once, with no inputs, and the session
      is Idle again: it never awaits input. */
  lemma CodeWithoutInputsRunsAtOnce(text: string, interpreter: Engine.Interpreter)
    requires Analyzer.CountInputs(Strip(text)) == 0
    ensures var t := Dispatch(AwaitingCode, TextMessage(text), interpreter);
      && t.after == Cleared
      && t.runs == [EngineCall(Strip(text), [])]
      && t.replies == [Running] + Report(Engine.Execute(interpreter, Strip(text), []))
  {
  }

  /** Code with input calls and a loop: the detected count is kept, and the
      requester is asked for the total number of inputs. */
  lemma CodeWithLoopAsksForCount(text: string, interpreter: Engine.Interpreter)
    requires Analyzer.CountInputs(Strip(text)) > 0 && Analyzer.HasLoop(Strip(text))
    ensures var t := Dispatch(AwaitingCode, TextMessage(text), interpreter);
      && t.after == Session(WaitingForInputCount, Some(Strip(text)), Some([]), Some(Analyzer.CountInputs(Strip(text))))
      && t.replies == [AskForInputCount]
      && t.runs == []
  {
  }

  /** Code with input calls and no loop: the detected count becomes the total
      and the first input is asked for. */
  lemma CodeWithFixedInputsAsksFirst(text: string, interpreter: Engine.Interpreter)
    requires Analyzer.CountInputs(Strip(text)) > 0 && !Analyzer.HasLoop(Strip(text))
    ensures var n := Analyzer.CountInputs(Strip(text));
      var t := Dispatch(AwaitingCode, TextMessage(text), interpreter);
      && t.after == Session(WaitingForInput, Some(Strip(text)), Some([]), Some(n))
      && t.replies == [AskForInput(1, n)]
      && t.runs == []
  {
  }

  // ---------------------------------------------------------------------
  // Input count
  // ---------------------------------------------------------------------

  /** A text that is not an integer, or is not positive, changes nothing
      and only asks again. */
  lemma InvalidCountChangesNothing(s: Session, text: string, interpreter: Engine.Interpreter)
    requires Valid(s) && s.phase == WaitingForInputCount
    requires ParseInt(Strip(text)).None? || ParseInt(Strip(text)).value <= 0
    ensures Dispatch(s, TextMessage(text), interpreter) == Transition(s, [InvalidInputCount], [])
  {
  }

  /** A positive integer overrides the detected count and starts collecting. */
  lemma PositiveCountOverrides(s: Session, text: string, k: int, interpreter: Engine.Interpreter)
    requires Valid(s) && s.phase == WaitingForInputCount
    requires ParseInt(Strip(text)) == Some(k) && k > 0
    ensures var t := Dispatch(s, TextMessage(text), interpreter);
      && t.after == Session(WaitingForInput, s.code, Some([]), Some(k))
      && t.replies == [CountAccepted(k)]
      && t.runs == []
  {
  }

  // ---------------------------------------------------------------------
  // Collecting inputs
  // ---------------------------------------------------------------------

  /** While inputs are still missing, each text is appended, stripped, and
      the next ordinal is asked for. */
  lemma InputBelowTotalAsksNext(s: Session, text: string, interpreter: Engine.Interpreter)
    requires Valid(s) && s.phase == WaitingForInput
    requires |s.inputs.value| + 1 < s.inputCount.value
    ensures var t := Dispatch(s, TextMessage(text), interpreter);
      && t.after == s.(inputs := Some(s.inputs.value + [Strip(text)]))
      && t.replies == [AskForInput(|s.inputs.value| + 2, s.inputCount.value)]
      && t.runs == []
  {
  }

  /** The last missing input runs the program once, on all inputs in arrival
      order, and clears the session whatever the outcome. */
  lemma LastInputRunsOnce(s: Session, text: string, interpreter: Engine.Interpreter)
    requires Valid(s) && s.phase == WaitingForInput
    requires |s.inputs.value| + 1 == s.inputCount.value
    ensures var inputs := s.inputs.value + [Strip(text)];
      var t := Dispatch(s, TextMessage(text), interpreter);
      && t.after == Cleared
      && t.runs == [EngineCall(s.code.value, inputs)]
      && t.replies == [Running] + Report(Engine.Execute(interpreter, s.code.value, inputs))
  {
  }

  // Sequence facts kept apart from the session lemmas, whose contexts are
  // costly to search once the solver has to reason about sequences in them.

  lemma SplitFront<T>(xs: seq<T>, ys: seq<T>)
    requires xs != []
    ensures (xs + ys)[0] == xs[0] && (xs + ys)[1..] == xs[1..] + ys
  {
  }

  lemma Assoc<T>(a: seq<T>, b: seq<T>, c: seq<T>)
    ensures a + (b + c) == (a + b) + c
  {
  }

  lemma TextMessagesFront(texts: seq<string>)
    ensures texts == [] ==> TextMessages(texts) == []
    ensures texts != [] ==> TextMessages(texts)[0] == TextMessage(texts[0]) && TextMessages(texts)[1..] == TextMessages(texts[1..])
  {
  }

  lemma StripAllFront(prefix: seq<string>, texts: seq<string>)
    ensures texts == [] ==> prefix + StripAll(texts) == prefix
    ensures texts != [] ==> prefix + StripAll(texts) == (prefix + [Strip(texts[0])]) + StripAll(texts[1..])
  {
    if texts != [] {
      assert StripAll(texts) == [Strip(texts[0])] + StripAll(texts[1..]);
    }
  }

  /** One step of a replay. */
  lemma ReplayStep(s: Session, messages: seq<Message>, interpreter: Engine.Interpreter)
    requires Valid(s) && messages != []
    ensures var first := Dispatch(s, messages[0], interpreter);
      var rest := Replay(first.after, messages[1..], interpreter);
      Replay(s, messages, interpreter) == Transition(rest.after, first.replies + rest.replies, first.runs + rest.runs)
  {
  }

  lemma ReplayNil(s: Session, interpreter: Engine.Interpreter)
    requires Valid(s)
    ensures Replay(s, [], interpreter) == Transition(s, [], [])
  {
  }

  /** Replaying texts while awaiting input starts with the first text's step. */
  lemma CollectStep(s: Session, texts: seq<string>, interpreter: Engine.Interpreter)
    requires Valid(s) && s.phase == WaitingForInput && texts != []
    ensures var first := Dispatch(s, TextMessage(texts[0]), interpreter);
      var rest := Replay(first.after, TextMessages(texts[1..]), interpreter);
      && Replay(s, TextMessages(texts), interpreter).after == rest.after
      && Replay(s, TextMessages(texts), interpreter).runs == first.runs + rest.runs
  {
    TextMessagesFront(texts);
    ReplayStep(s, TextMessages(texts), interpreter);
  }

  /** Fewer texts than are missing: all of them are collected in order and
      nothing runs. */
  lemma {:induction false} CollectingKeepsOrder(s: Session, texts: seq<string>, interpreter: Engine.Interpreter)
    requires Valid(s) && s.phase == WaitingForInput
    requires |s.inputs.value| + |texts| < s.inputCount.value
    ensures var t := Replay(s, TextMessages(texts), interpreter);
      && t.after == s.(inputs := Some(s.inputs.value + StripAll(texts)))
      && t.runs == []
    decreases |texts|
  {
    TextMessagesFront(texts);
    StripAllFront(s.inputs.value, texts);
    if texts == [] {
      ReplayNil(s, interpreter);
    } else {
      var next := s.(inputs := Some(s.inputs.value + [Strip(texts[0])]));
      CollectStep(s, texts, interpreter);
      InputBelowTotalAsksNext(s, texts[0], interpreter);
      CollectingKeepsOrder(next, texts[1..], interpreter);
    }
  }

  /** Exactly the missing number of texts: the program runs once, on the
      inputs collected so far followed by these texts stripped, in order,
      and the session ends Idle. */
  lemma {:induction false} CollectingRunsOnce(s: Session, texts: seq<string>, interpreter: Engine.Interpreter)
    requires Valid(s) && s.phase == WaitingForInput
    requires |s.inputs.value| + |texts| == s.inputCount.value
    ensures var t := Replay(s, TextMessages(texts), interpreter);
      && t.after == Cleared
      && t.runs == [EngineCall(s.code.value, s.inputs.value + StripAll(texts))]
    decreases |texts|
  {
    CollectStep(s, texts, interpreter);
    StripAllFront(s.inputs.value, texts);
    if |texts| > 1 {
      var next := s.(inputs := Some(s.inputs.value + [Strip(texts[0])]));
      InputBelowTotalAsksNext(s, texts[0], interpreter);
      CollectingRunsOnce(next, texts[1..], interpreter);
    } else {
      LastInputRunsOnce(s, texts[0], interpreter);
      TextMessagesFront(texts[1..]);
      ReplayNil(Cleared, interpreter);
      StripAllFront(s.inputs.value + [Strip(texts[0])], texts[1..]);
    }
  }

  // ---------------------------------------------------------------------
  // Whole runs
  // ---------------------------------------------------------------------

  /** Code with n input calls and no loop, followed by n texts: exactly one
      engine call, with the stripped code and the stripped texts in the order
      they arrived; the session ends Idle. */
  lemma FixedInputsRunOnce(code: string, texts: seq<string>, interpreter: Engine.Interpreter)
    requires Analyzer.CountInputs(Strip(code)) == |texts| > 0 && !Analyzer.HasLoop(Strip(code))
    ensures var t := Replay(AwaitingCode, [TextMessage(code)] + TextMessages(texts), interpreter);
      && t.after == Cleared
      && t.runs == [EngineCall(Strip(code), StripAll(texts))]
  {
    var ms := [TextMessage(code)] + TextMessages(texts);
    ReplayStep(AwaitingCode, ms, interpreter);
    CodeWithFixedInputsAsksFirst(code, interpreter);
    var next := Session(WaitingForInput, Some(Strip(code)), Some([]), Some(|texts|));
    assert ms[1..] == TextMessages(texts);
    CollectingRunsOnce(next, texts, interpreter);
    assert [] + StripAll(texts) == StripAll(texts);
  }

  /** Code with input calls inside a loop: after the requester gives a
      positive total k, exactly k texts run the program once with them, in
      order, whatever count was detected. */
  lemma LoopInputsRunOnce(code: string, total: string, k: int, texts: seq<string>, interpreter: Engine.Interpreter)
    requires Analyzer.CountInputs(Strip(code)) > 0 && Analyzer.HasLoop(Strip(code))
    requires ParseInt(Strip(total)) == Some(k) && k > 0 && |texts| == k
    ensures var t := Replay(AwaitingCode, [TextMessage(code), TextMessage(total)] + TextMessages(texts), interpreter);
      && t.after == Cleared
      && t.runs == [EngineCall(Strip(code), StripAll(texts))]
  {
    var ms := [TextMessage(code), TextMessage(total)] + TextMessages(texts);
    ReplayStep(AwaitingCode, ms, interpreter);
    CodeWithLoopAsksForCount(code, interpreter);
    var asking := Session(WaitingForInputCount, Some(Strip(code)), Some([]), Some(Analyzer.CountInputs(Strip(code))));
    ReplayStep(asking, ms[1..], interpreter);
    PositiveCountOverrides(asking, total, k, interpreter);
    var collecting := Session(WaitingForInput, Some(Strip(code)), Some([]), Some(k));
    assert ms[1..][1..] == TextMessages(texts);
    CollectingRunsOnce(collecting, texts, interpreter);
    assert [] + StripAll(texts) == StripAll(texts);
  }

  /** Replays compose: handling a stream in two parts is handling it whole. */
  lemma {:induction false} ReplayAppend(s: Session, xs: seq<Message>, ys: seq<Message>, interpreter: Engine.Interpreter)
    requires Valid(s)
    ensures var a := Replay(s, xs, interpreter);
      var b := Replay(a.after, ys, interpreter);
      Replay(s, xs + ys, interpreter) == Transition(b.after, a.replies + b.replies, a.runs + b.runs)
    decreases |xs|
  {
    if xs == [] {
      assert xs + ys == ys;
    } else {
      var first := Dispatch(s, xs[0], interpreter);
      var a' := Replay(first.after, xs[1..], interpreter);
      var b := Replay(a'.after, ys, interpreter);
      ReplayStep(s, xs, interpreter);
      ReplayStep(s, xs + ys, interpreter);
      SplitFront(xs, ys);
      ReplayAppend(first.after, xs[1..], ys, interpreter);
      Assoc(first.replies, a'.replies, b.replies);
      Assoc(first.runs, a'.runs, b.runs);
    }
  }

  /** Whatever a requester sends, the session ends Idle after any message
      stream that ends with /cancel or /start: a run in progress never
      outlives an explicit reset. */
  lemma ResetAlwaysReachesIdle(s: Session, messages: seq<Message>, reset: Command, interpreter: Engine.Interpreter)
    requires Valid(s) && (reset == Cancel || reset == Start)
    ensures Replay(s, messages + [CommandMessage(reset)], interpreter).after == Cleared
  {
    ReplayAppend(s, messages, [CommandMessage(reset)], interpreter);
    var a := Replay(s, messages, interpreter);
    ReplayStep(a.after, [CommandMessage(reset)], interpreter);
  }

  // ---------------------------------------------------------------------
  // Scenarios
  // ---------------------------------------------------------------------

  /** `print("hi")` has no input call: it runs at once, and what the child
      printed is shown. */
  lemma PrintRunsAtOnce(interpreter: Engine.Interpreter)
    requires interpreter("print(\"hi\")", None) == Engine.Finished("hi\n", "")
    ensures Dispatch(AwaitingCode, TextMessage("print(\"hi\")"), interpreter)
      == Transition(Cleared, [Running, ShowOutput("hi\n")], [EngineCall("print(\"hi\")", [])])
  {
    var code := "print(\"hi\")";
    StripTrimmed(code);
    Analyzer.PrintHasNoInputCall();
    PrintedHiShown(interpreter);
    CodeWithoutInputsRunsAtOnce(code, interpreter);
  }

  lemma PrintedHiShown(interpreter: Engine.Interpreter)
    requires interpreter("print(\"hi\")", None) == Engine.Finished("hi\n", "")
    ensures Report(Engine.Execute(interpreter, "print(\"hi\")", [])) == [ShowOutput("hi\n")]
  {
    assert "hi\n" + "" == "hi\n";
  }

  /** One input call and no loop: the single text `5` reaches the child as
      the standard input `5` followed by a line feed. */
  lemma OneInputReachesStdin(code: string, interpreter: Engine.Interpreter)
    requires Analyzer.CountInputs(Strip(code)) == 1 && !Analyzer.HasLoop(Strip(code))
    ensures var t := Replay(AwaitingCode, [TextMessage(code), TextMessage("5")], interpreter);
      && t.runs == [EngineCall(Strip(code), ["5"])]
      && Engine.StdinPayload(t.runs[0].inputs) == Some("5\n")
  {
    FixedInputsRunOnce(code, ["5"], interpreter);
    SingleTextFive(code);
  }

  lemma SingleTextFive(code: string)
    ensures [TextMessage(code)] + TextMessages(["5"]) == [TextMessage(code), TextMessage("5")]
    ensures StripAll(["5"]) == ["5"]
    ensures Engine.StdinPayload(["5"]) == Some("5\n")
  {
    StripTrimmed("5");
    assert StripAll(["5"])[0] == "5";
    assert ["5"][1..] == [];
    assert Engine.Terminated(["5"]) == "5" + "\n" + "" == "5\n";
  }
}
