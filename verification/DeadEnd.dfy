/** Concrete runs that crash: one that a tool phase ends without the loop noticing crashes on its second turn,
    two others on their first. */
module DeadEnd {
  import opened Messages
  import opened TrackedView
  import opened Stages
  import opened ContextBudget
  import ToolAnswers
  import opened RuntimeSpec
  import opened RuntimeLaws
  import opened RuntimeSteps
  import opened Orchestration
  import opened LoopCap
  import TP = ToolPolicy

  /** A window of three messages, of which one must be left for generation. */
  const TIGHT: Config := Config(
    None, None, None, FormatErrorStrategy.Ignore, Plain(""), (text: Text) => false, (text: Text) => false, 0, None,
    false, (names: set<string>) => None, None, Some(3), 0, 1, 1, (ms: seq<Message>) => |ms|, false, false, true)

  lemma PlainStart(cfg: Config, tools: TP.ToolState, task: Text)
    requires cfg.Ok() && cfg.systemPrompt.None? && cfg.maxTurns.None?
    ensures
      var s := Started(cfg, tools, task);
      && Running(cfg, s) && s.rt.stage == InitialAwaitAssistant && s.tools == TP.TaskStart(tools)
      && s.rt.view.visible == [UserMessage(task)]
  {
    hide Append, ContextCheckpoint, Inv, ToDicts, Spendable;
    StartRuns(cfg, tools, task);
    FirstMessage(UserMessage(task));
    CheckpointSkipped(cfg, Opened(cfg, FRESH, task));
  }

  /** One call fits the window. */
  lemma TightCall(st: State, name: string)
    requires Inv(TIGHT, st) && st.stage == InitialAwaitAssistant && |st.view.visible| == 1
    ensures
      var w := ApplyAssistant(TIGHT, st, CallingMessage(name), false);
      w.error.None? && Inv(TIGHT, w.st) && CallsPending(st, CallingMessage(name), w.st)
  {
    hide Receive, HandleToolCalls, HandleText, Inv;
    var m := CallingMessage(name);
    AnswerReceived(TIGHT, st, m);
    assert GenerationCheck(TIGHT, Receive(st, m), true, false).None?;
    CallsStep(TIGHT, st, m, Receive(st, m));
  }

  /** Its result does not. */
  lemma TightResult(st: State, name: string, result: Message, rejected: set<string>)
    requires Inv(TIGHT, st) && st.stage == ToolCallsAwaitTool && st.pending == [CallOf(name)] && |st.view.visible| == 2
    requires result.role == Tool && result.toolCallId == Some("call")
    ensures
      var w := ApplyToolResults(TIGHT, st, [result], false, rejected);
      w.error.None? && Inv(TIGHT, w.st) && w.st.stage == TokenExceeded
  {
    hide ToolWork, Resolve, ToolAnswers.Answers, ApplyToolResults, Inv, RollBackForContext;
    OneResult(TIGHT, result, name, rejected);
    ToolResultsStep(TIGHT, st, [result], false, rejected);
    ResultsStopExactly(TIGHT, st, [result], false, rejected);
  }

  lemma TightTurn(p: TP.Policy, s: RunState, name: string)
    requires Running(TIGHT, s) && s.rt.stage == InitialAwaitAssistant && |s.rt.view.visible| == 1
    requires Roomy(p, s.tools, name)
    ensures
      var r := Turn(TIGHT, p, s, Calling(name));
      r.finished.None? && r.rt.stage == TokenExceeded
  {
    hide ApplyAssistant, ApplyToolResults, TP.ExecuteRound, TP.Exhausted, Inv, Tracks, ToDicts, Spendable;
    TightCall(s.rt, name);
    var called := ApplyAssistant(TIGHT, s.rt, CallingMessage(name), false).st;
    RoundOfOne(p, s.tools, name);
    var outcomes := TP.ExecuteRound(p, s.tools, TP.RequestsFor(p, [CallOf(name)]), Calling(name).world).1;
    var rejected := TP.RejectedIds(outcomes);
    TightResult(called, name, Answer(p, name), rejected);
    InvReports(TIGHT, ApplyAssistant(TIGHT, s.rt, CallingMessage(name), false), false);
    InvReports(TIGHT, ApplyToolResults(TIGHT, called, [Answer(p, name)], false, rejected), false);
  }

  /** After one tool call the run is unfinished at the terminal stage; any answer, empty response or context error
      then leaves the loop as an exception. */
  lemma {:induction false} DeadEndIsReached(p: TP.Policy, tools: TP.ToolState, task: Text, name: string,
                                            events: nat -> Event)
    requires Roomy(p, TP.TaskStart(tools), name) && events(0) == Calling(name) && events(1) != OtherModelError
    ensures
      var s := Started(TIGHT, tools, task);
      var r := After(TIGHT, p, s, events, 1);
      && r.finished.None? && r.rt.stage == TokenExceeded
      && HasCrashed(After(TIGHT, p, s, events, 2))
  {
    hide Turn, Started, Running;
    var s := Started(TIGHT, tools, task);
    PlainStart(TIGHT, tools, task);
    assert After(TIGHT, p, s, events, 0) == s;
    TightTurn(p, s, name);
    StillRunning(TIGHT, p, s, Calling(name));
    var r := After(TIGHT, p, s, events, 1);
    assert r == Turn(TIGHT, p, s, Calling(name));
    DeadEndCrashes(TIGHT, p, r, events(1));
  }

  // ---------- Runs that crash on their first turn ----------

  /** A final-response prompt that is configured but empty. */
  const NO_PROMPT: Config := Config(
    None, None, Some(""), FormatErrorStrategy.Ignore, Plain(""), (text: Text) => false, (text: Text) => false, 0, None,
    false, (names: set<string>) => None, None, None, 0, 0, 0, (ms: seq<Message>) => |ms|, false, false, true)

  /** A window that the force-final prompt does not fit. */
  const NO_ROOM: Config := Config(
    None, Some("stop"), None, FormatErrorStrategy.Ignore, Plain(""), (text: Text) => false, (text: Text) => false, 0,
    None, false, (names: set<string>) => None, None, Some(2), 0, 1, 0, (ms: seq<Message>) => |ms|, false, false, true)

  lemma FirstTurnCrashes(cfg: Config, p: TP.Policy, tools: TP.ToolState, task: Text, events: nat -> Event)
    requires cfg.Ok() && Crashes(cfg, Started(cfg, tools, task), events(0))
    ensures HasCrashed(After(cfg, p, Started(cfg, tools, task), events, 1))
  {
    hide Turn, Running, Crashes, WentOn, Kept;
    var s := Started(cfg, tools, task);
    assert s.finished.None?;
    hide Started;
    StartRuns(cfg, tools, task);
    TurnKeeps(cfg, p, s, events(0));
    assert After(cfg, p, s, events, 0) == s;
  }

  lemma NothingMeasured(cfg: Config, w: Work)
    requires cfg.minGeneration == 0
    ensures GenerationCheck(cfg, w, true, false).None?
  {
  }

  lemma TextRaisesAtStart(st: State, m: Message)
    requires st.stage == InitialAwaitAssistant && m.role == Assistant && !m.HasToolCalls()
    ensures AnswerRaises(NO_PROMPT, st, m, false)
  {
    hide Receive, GenerationCheck;
    NothingMeasured(NO_PROMPT, Receive(st, m));
    assert NO_PROMPT.finalPrompt == Some("");
    assert !Refused(NO_PROMPT, m) && !Misformatted(NO_PROMPT, m);
    assert Awaiting(st.stage);
  }

  /** With an empty final-response prompt, the first text answer of any run leaves the loop as an exception. */
  lemma EmptyPromptCrashes(p: TP.Policy, tools: TP.ToolState, task: Text, events: nat -> Event)
    requires events(0).Response? && !events(0).cutShort
    requires events(0).message.role == Assistant && !events(0).message.HasToolCalls()
    ensures HasCrashed(After(NO_PROMPT, p, Started(NO_PROMPT, tools, task), events, 1))
  {
    hide After, Started, Running, AnswerRaises, Observe;
    var s, e := Started(NO_PROMPT, tools, task), events(0);
    PlainStart(NO_PROMPT, tools, task);
    ObserveStage(NO_PROMPT, s.rt, s.prompt, e.inputTokens);
    TextRaisesAtStart(Observe(NO_PROMPT, s.rt, s.prompt, e.inputTokens), e.message);
    FirstTurnCrashes(NO_PROMPT, p, tools, task, events);
  }

  lemma NoRoomForWarning(st: State)
    requires st.stage == InitialAwaitAssistant && |st.view.visible| == 1
    ensures RecoveryRaises(NO_ROOM, st)
  {
    var v := st.view.visible;
    assert |v + (NO_ROOM.WarningMessages() + NO_ROOM.Probe())| == 2;
    assert WarningRemaining(NO_ROOM, st.view) == Some(0);
  }

  /** With a generation minimum and a prompt that leaves no room for the force-final prompt, a context error on the
      first turn of any run does the same. */
  lemma NoRoomCrashes(p: TP.Policy, tools: TP.ToolState, task: Text, events: nat -> Event)
    requires events(0) == ContextLimitError
    ensures HasCrashed(After(NO_ROOM, p, Started(NO_ROOM, tools, task), events, 1))
  {
    hide After, Started, Running, RecoveryRaises;
    var s := Started(NO_ROOM, tools, task);
    PlainStart(NO_ROOM, tools, task);
    NoRoomForWarning(s.rt);
    FirstTurnCrashes(NO_ROOM, p, tools, task, events);
  }
}
