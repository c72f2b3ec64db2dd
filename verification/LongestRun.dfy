/** How long a run can take where nothing measures the context, exactly; and so when the loop's safety cap fires. */
module LongestRun {
  import opened Messages
  import opened TrackedView
  import opened Stages
  import opened ContextBudget
  import ToolAnswers
  import opened RuntimeSpec
  import opened RuntimeLaws
  import opened RuntimeSteps
  import opened Orchestration
  import opened LoopCap
  import TP = ToolPolicy

  // ---------- Recoveries in sight ----------

  lemma ExchangeSize(cfg: Config, v: seq<Message>)
    ensures LatestExchange(cfg, v) > 0 ==> LatestExchange(cfg, v) >= 2 + TrailingPrompt(cfg, v)
  {
  }

  /** What one recovery from an empty response leaves. */
  function Recovered(cfg: Config, v: seq<Message>): seq<Message> {
    v[..|v| - LatestExchange(cfg, v)] + cfg.WarningMessages()
  }

  /** How many recoveries from empty responses in a row the conversation allows. */
  function Trail(cfg: Config, v: seq<Message>): nat
    decreases |v|
  {
    ExchangeSize(cfg, v);
    if LatestExchange(cfg, v) == 0 then 0 else 1 + Trail(cfg, Recovered(cfg, v))
  }

  /** The same after the best that the next step can do: recover at once, or hide the last answer first. */
  function Reach(cfg: Config, v: seq<Message>): nat {
    Max(Trail(cfg, v), Trail(cfg, v[..|v| - RollbackSize(v)] + cfg.WarningMessages()))
  }

  function Max(a: int, b: int): int {
    if a >= b then a else b
  }

  /** No user message poses as a tool result; none that the runtime shows does. */
  predicate PlainUsers(v: seq<Message>) {
    forall i :: 0 <= i < |v| ==> v[i].role == User ==> v[i].toolCallId.None?
  }

  /** The latest exchange, not counting a trailing force-final prompt. */
  lemma WarningInSight(cfg: Config, v: seq<Message>)
    requires cfg.EarlyStopPrompt() != Some("") && PlainUsers(v)
    ensures
      var w := cfg.WarningMessages();
      if TrailingPrompt(cfg, v) == 0
      then LatestExchange(cfg, v + w) == (if LatestExchange(cfg, v) == 0 then 0 else LatestExchange(cfg, v) + |w|)
      else w != [] && LatestExchange(cfg, v + w) == 0
  {
    var w := cfg.WarningMessages();
    if w == [] {
      assert v + w == v;
    } else {
      assert (v + w)[..|v + w| - 1] == v;
      assert v[..|v|] == v;
    }
  }

  /** The force-final prompt hides no exchange and opens none. */
  lemma {:induction false} WarnedTrail(cfg: Config, v: seq<Message>)
    requires cfg.EarlyStopPrompt() != Some("") && PlainUsers(v)
    ensures Trail(cfg, v + cfg.WarningMessages()) <= Trail(cfg, v)
    ensures TrailingPrompt(cfg, v) == 0 ==> Trail(cfg, v + cfg.WarningMessages()) == Trail(cfg, v)
  {
    hide LatestExchange;
    WarningInSight(cfg, v);
    var w := cfg.WarningMessages();
    if LatestExchange(cfg, v + w) > 0 {
      assert (v + w)[..|v + w| - LatestExchange(cfg, v + w)] == v[..|v| - LatestExchange(cfg, v)];
    }
  }

  lemma ResultsInSight(cfg: Config, v: seq<Message>, m: Message, all: seq<Message>)
    requires MakesCalls(m) && all != [] && AllTool(all)
    ensures TrailingPrompt(cfg, v + [m] + all) == 0 && LatestExchange(cfg, v + [m] + all) == 1 + |all|
  {
    var x := v + [m] + all;
    assert x[|x| - 1] == all[|all| - 1];
    ResultsTrail(v, m, all);
    assert x[..|x|] == x && x[|v|] == m;
  }

  lemma {:induction false} ResultsTrail(v: seq<Message>, m: Message, all: seq<Message>)
    requires m.role == Assistant && AllTool(all)
    ensures TrailingResults(v + [m] + all) == |all|
  {
    var x := v + [m] + all;
    if all == [] {
      assert x == v + [m];
    } else {
      assert x[..|x| - 1] == v + [m] + all[..|all| - 1];
      ResultsTrail(v, m, all[..|all| - 1]);
    }
  }

  /** An exchange adds one recovery to those that its prompt allowed. */
  lemma {:induction false} ExchangeTrail(cfg: Config, v: seq<Message>, m: Message, all: seq<Message>)
    requires cfg.EarlyStopPrompt() != Some("") && PlainUsers(v)
    requires MakesCalls(m) && all != [] && AllTool(all)
    ensures
      var x, w := v + [m] + all, cfg.WarningMessages();
      && Trail(cfg, x) == 1 + Trail(cfg, v + w) == Trail(cfg, x + w)
      && Reach(cfg, x) == 1 + Trail(cfg, v + w)
  {
    hide LatestExchange, RollbackSize;
    var x := v + [m] + all;
    ResultsInSight(cfg, v, m, all);
    RollbackReachesTheCall(v, m, all);
    WarnedTrail(cfg, x);
    assert x[..|x| - 1 - |all|] == v;
  }

  /** After a text and a prompt there is nothing to recover. */
  lemma {:induction false} PromptedTrail(cfg: Config, v: seq<Message>, m: Message, prompt: Text)
    requires cfg.EarlyStopPrompt() != Some("") && PlainUsers(v) && m.role == Assistant && !m.HasToolCalls()
    ensures
      var x, w := v + [m] + [UserMessage(prompt)], cfg.WarningMessages();
      && Trail(cfg, x) == 0 == Trail(cfg, x + w)
      && Reach(cfg, x) == Trail(cfg, v + w)
  {
    var x := v + [m] + [UserMessage(prompt)];
    assert x[..|x| - 1] == v + [m];
    assert x[..|x|] == x;
    WarnedTrail(cfg, x);
    assert (v + [m])[|v + [m]| - 1] == m;
    assert RollbackSize(x) == 2 && x[..|x| - 2] == v;
  }

  lemma {:induction false} NothingToRecover(cfg: Config, v: seq<Message>)
    requires forall i :: 0 <= i < |v| ==> v[i].role != Assistant
    ensures Trail(cfg, v) == 0
  {
  }

  // ---------- The longest run ----------

  predicate Prompts(cfg: Config) {
    cfg.finalPrompt.Some? && cfg.finalPrompt != Some("")
  }

  /** The most turns from a free answer with `slack` turns before the last permitted one, no rollbacks left and no
      exchange in sight, if some text is accepted on the way: that gives the rollbacks back, and puts all earlier
      exchanges out of sight. */
  ghost function Accepting(cfg: Config, slack: int): (n: nat)
    decreases slack, 0
  {
    if slack <= 0 || !Prompts(cfg) then 0
    else Max(1 + Finishing(cfg, slack - 1), if slack >= 2 then 1 + Accepting(cfg, slack - 1) else 0)
  }

  /** The same right after the text was accepted, before the final round is answered. */
  ghost function Finishing(cfg: Config, slack: int): (n: nat)
    decreases slack, 1
  {
    if slack <= 0 then 0
    else if slack == 1 then 2
    else 1 + Spendable(cfg) + Max(2 * slack - 1, Accepting(cfg, slack - 1))
  }

  ghost function Slack(cfg: Config, st: State): int
    requires cfg.maxTurns.Some?
  {
    cfg.maxTurns.value - 1 - st.turns
  }

  /** The most turns that are left. */
  ghost function Left(cfg: Config, st: State): int
    requires cfg.maxTurns.Some?
  {
    var v, slack := st.view.visible, Slack(cfg, st);
    if st.stage == ForceFinalAwaitAssistant then Trail(cfg, v)
    else if st.stage == FinalPromptAwaitAssistant then Finishing(cfg, slack)
    else if Awaiting(st.stage)
      then Spendable(cfg) - st.rollbacks + Max(Reach(cfg, v) + 2 * slack, Accepting(cfg, slack))
    else 0
  }

  /** A running run; at the final round nothing is in sight to recover. */
  ghost predicate Paced(cfg: Config, s: RunState) {
    && Unmeasured(cfg) && Running(cfg, s)
    && PlainUsers(s.rt.view.visible)
    && (s.rt.stage == FinalPromptAwaitAssistant ==> Trail(cfg, s.rt.view.visible) == 0)
  }

  /** The turn finished the run or used up one of the turns left. */
  ghost predicate Spent(cfg: Config, before: State, s: RunState)
    requires cfg.maxTurns.Some?
  {
    s.finished.None? ==>
      && Left(cfg, s.rt) + 1 <= Left(cfg, before) && PlainUsers(s.rt.view.visible)
      && (s.rt.stage == FinalPromptAwaitAssistant ==> Trail(cfg, s.rt.view.visible) == 0)
  }

  lemma AcceptingSteps(cfg: Config, slack: int)
    ensures slack >= 2 ==> Accepting(cfg, slack) >= (if Prompts(cfg) then 1 + Accepting(cfg, slack - 1) else 0)
    ensures slack >= 1 && Prompts(cfg) ==> Accepting(cfg, slack) >= 1 + Finishing(cfg, slack - 1)
    ensures !Prompts(cfg) ==> Accepting(cfg, slack) == 0
  {
  }

  // ---------- No run is longer ----------

  /** What an exchange does to what is left: it takes a turn and puts one exchange in sight. */
  lemma {:induction false} ExchangeSpends(cfg: Config, st: State, m: Message, all: seq<Message>, r: State)
    requires Unmeasured(cfg) && Awaiting(st.stage) && st.rollbacks <= Spendable(cfg) && Slack(cfg, st) >= 1
    requires PlainUsers(st.view.visible)
    requires st.stage == FinalPromptAwaitAssistant ==> Trail(cfg, st.view.visible) == 0
    requires MakesCalls(m) && all != [] && AllTool(all)
    requires r.turns == st.turns + 1 && r.rollbacks == st.rollbacks
    requires
      var x := st.view.visible + [m] + all;
      if r.stage == ForceFinalAwaitAssistant then r.view.visible == x + cfg.WarningMessages()
      else r.stage == ToolMessagesAwaitAssistant && r.view.visible == x && Slack(cfg, st) >= 2
    ensures Left(cfg, r) + 1 <= Left(cfg, st)
  {
    hide Trail, Spendable, Config.WarningMessages, MakesCalls, RollbackSize, PlainUsers, Accepting;
    var v := st.view.visible;
    ExchangeTrail(cfg, v, m, all);
    WarnedTrail(cfg, v);
    AcceptingSteps(cfg, Slack(cfg, st));
    AcceptingSteps(cfg, Slack(cfg, st) - 1);
  }

  lemma {:induction false} PromptSpends(cfg: Config, st: State, m: Message, prompt: Text, next: Stage, r: State)
    requires Unmeasured(cfg) && Awaiting(st.stage) && st.stage != FinalPromptAwaitAssistant
    requires st.rollbacks <= Spendable(cfg) && Slack(cfg, st) >= 1 && PlainUsers(st.view.visible)
    requires m.role == Assistant && !m.HasToolCalls() && r.turns == st.turns + 1
    requires if next == FinalPromptAwaitAssistant then Prompts(cfg) && r.rollbacks == 0
             else next == FormatErrorAwaitAssistant && r.rollbacks == st.rollbacks
    requires
      var x := st.view.visible + [m] + [UserMessage(prompt)];
      if r.stage == ForceFinalAwaitAssistant then r.view.visible == x + cfg.WarningMessages()
      else r.stage == next && r.view.visible == x && Slack(cfg, st) >= 2
    ensures Left(cfg, r) + 1 <= Left(cfg, st)
    ensures r.stage == FinalPromptAwaitAssistant ==> Trail(cfg, r.view.visible) == 0
  {
    hide Trail, Spendable, Config.WarningMessages, RollbackSize, PlainUsers, Accepting;
    var v := st.view.visible;
    PromptedTrail(cfg, v, m, prompt);
    WarnedTrail(cfg, v);
    AcceptingSteps(cfg, Slack(cfg, st));
    AcceptingSteps(cfg, Slack(cfg, st) - 1);
  }

  // ---------- Exact turns ----------

  lemma ShownPlain(cfg: Config, v: seq<Message>, m: Message, all: seq<Message>)
    requires PlainUsers(v) && m.role == Assistant
    requires AllTool(all) || exists prompt :: all == [UserMessage(prompt)]
    ensures PlainUsers(v + [m] + all) && PlainUsers(v + [m] + all + cfg.WarningMessages())
  {
  }

  /** The results of the pending calls lead to one more exchange in sight, or to the end being forced. */
  lemma ResultsPaced(cfg: Config, st: State, m: Message, called: State, results: seq<Message>,
                     exhausted: bool, rejected: set<string>)
    requires Unmeasured(cfg) && Awaiting(st.stage) && CallsPending(st, m, called) && Inv(cfg, called)
    requires ToolAnswers.Answers(results, called.pending) && AllTool(results)
    ensures Resolve(cfg, called.pending, results, rejected).Some?
    ensures
      var r := ApplyToolResults(cfg, called, results, exhausted, rejected).st;
      var all := Resolve(cfg, called.pending, results, rejected).value;
      var x := st.view.visible + [m] + all;
      && all != [] && AllTool(all) && r.turns == st.turns + 1 && r.rollbacks == st.rollbacks
      && (if r.stage == ForceFinalAwaitAssistant then r.view.visible == x + cfg.WarningMessages()
          else r.stage == ToolMessagesAwaitAssistant && r.view.visible == x && Slack(cfg, st) >= 2)
  {
    hide Resolve, ToolWork, Inject, ToolAnswers.Answers, GenerationCheck, ContextCheckpoint;
    ResolvedBatch(cfg, called.pending, results, rejected);
    ToolResultsStep(cfg, called, results, exhausted, rejected);
    var w := ToolWork(called, Resolve(cfg, called.pending, results, rejected).value);
    NoGenerationCheck(cfg, w, true, true);
    if exhausted {
      InjectEffect(cfg, w, ToolsExhausted);
    } else if TurnLimitReached(cfg, w.st) {
      InjectEffect(cfg, w, TurnLimit);
    }
  }

  /** The prompt that follows an answer which is neither a call nor hidden nor final. */
  predicate Prompted(cfg: Config, st: State, m: Message, prompt: Text, next: Stage, r: State)
    requires cfg.maxTurns.Some?
  {
    var x := st.view.visible + [m] + [UserMessage(prompt)];
    && st.stage != FinalPromptAwaitAssistant && !m.HasToolCalls() && r.turns == st.turns + 1
    && (if next == FinalPromptAwaitAssistant then Prompts(cfg) && r.rollbacks == 0
        else next == FormatErrorAwaitAssistant && r.rollbacks == st.rollbacks)
    && (if r.stage == ForceFinalAwaitAssistant then r.view.visible == x + cfg.WarningMessages()
        else r.stage == next && r.view.visible == x && cfg.maxTurns.value - 1 - st.turns >= 2)
  }

  lemma PromptedExactly(cfg: Config, st: State, m: Message, w: Work, rollbacks: nat, prompt: Text, next: Stage)
    requires cfg.maxTurns.Some? && Answered(cfg, st, m, w) && Awaiting(st.stage)
    requires st.stage != FinalPromptAwaitAssistant
    requires !m.HasToolCalls()
    requires if next == FinalPromptAwaitAssistant then Prompts(cfg) && rollbacks == 0
             else next == FormatErrorAwaitAssistant && rollbacks == st.rollbacks
    ensures
      var r := Prompt(cfg, w.(st := w.st.(rollbacks := rollbacks)), prompt, next);
      r.error.None? && Prompted(cfg, st, m, prompt, next, r.st)
  {
    hide Append, Inject, ViewReplay, Tracks;
    var w1 := w.(st := w.st.(rollbacks := rollbacks));
    AppendPlain(w1, [UserMessage(prompt)]);
    var asked := Transit(Append(w1, [UserMessage(prompt)]), next);
    assert asked.st.view.visible == st.view.visible + [m] + [UserMessage(prompt)];
    if TurnLimitReached(cfg, asked.st) {
      InjectEffect(cfg, asked, TurnLimit);
    }
  }

  lemma TextPaced(cfg: Config, st: State, m: Message, w: Work)
    requires cfg.maxTurns.Some? && Answered(cfg, st, m, w) && Awaiting(st.stage) && !m.HasToolCalls()
    ensures
      var r := HandleText(cfg, w, st.stage, m);
      || r.error.Some? || ActionOf(r.st.stage) == Some(Finish)
      || (st.stage != FinalPromptAwaitAssistant && AnswerUndone(cfg, st, m, r.st))
      || exists prompt, next :: Prompted(cfg, st, m, prompt, next, r.st)
  {
    hide RollBackAssistant, Prompt, Inv, Tracks, Prompted, Transit, Append;
    if st.stage == FinalPromptAwaitAssistant {
      FinishedStage(w.(st := w.st.(rollbacks := 0)));
    } else if MayRollBack(cfg, st) && m.content.Some? && Hides(cfg, m.content.value) {
      UndoneStep(cfg, st, m, w, if Refused(cfg, m) then "assistant_refusal" else "format_error");
    } else if cfg.strategy == FormatErrorStrategy.Reprompt && Misformatted(cfg, m) {
      assert w.(st := w.st.(rollbacks := st.rollbacks)) == w;
      PromptedExactly(cfg, st, m, w, st.rollbacks, cfg.reprompt, FormatErrorAwaitAssistant);
    } else if Prompts(cfg) {
      PromptedExactly(cfg, st, m, w, 0, Plain(cfg.finalPrompt.value), FinalPromptAwaitAssistant);
    } else if cfg.finalPrompt.None? {
      FinishedStage(w.(st := w.st.(rollbacks := 0)));
    }
  }

  lemma FinishedStage(w: Work)
    requires w.error.None? && w.st.stage == AssistantReceived
    ensures Transit(w, Completed).st.stage == Completed
  {
  }

  /** An answer where nothing measures the context: it raises, finishes, leaves calls to run, is hidden, or is
      followed by a prompt. */
  lemma AnswerPaced(cfg: Config, st: State, m: Message, cutShort: bool)
    requires Unmeasured(cfg) && Inv(cfg, st) && ActionOf(st.stage) == Some(CallModel) && m.role == Assistant
    ensures
      var r := ApplyAssistant(cfg, st, m, cutShort);
      || r.error.Some? || ActionOf(r.st.stage) == Some(Finish)
      || (Awaiting(st.stage)
          && (CallsPending(st, m, r.st) || (st.stage != FinalPromptAwaitAssistant && AnswerUndone(cfg, st, m, r.st))
              || exists prompt, next :: Prompted(cfg, st, m, prompt, next, r.st)))
  {
    hide Receive, HandleText, HandleForceFinal, HandleToolCalls, GenerationCheck, Inv, Tracks, Hides;
    assert Inv(cfg, st);
    var w := Receive(st, m);
    assert w.error.None? && Answered(cfg, st, m, w) by { AnswerReceived(cfg, st, m); }
    NoGenerationCheck(cfg, w, true, false);
    if (cutShort && !m.HasContent() && !m.HasToolCalls()) || (cutShort && st.stage != ForceFinalAwaitAssistant) {
      StoppedStage(w);
    } else if st.stage == ForceFinalAwaitAssistant {
      AssistantStep(cfg, st, m, cutShort);
    } else if m.HasToolCalls() {
      CallsStep(cfg, st, m, w);
    } else {
      TextPaced(cfg, st, m, w);
    }
  }

  // ---------- Every turn spends ----------

  lemma PacedStart(cfg: Config, st: State)
    requires Inv(cfg, st) && cfg.maxTurns.Some?
    ensures Awaiting(st.stage) ==> Slack(cfg, st) >= 1
  {
  }

  lemma HiddenSpends(cfg: Config, st: State, m: Message, r: State)
    requires cfg.maxTurns.Some? && Awaiting(st.stage) && st.stage != FinalPromptAwaitAssistant
    requires AnswerUndone(cfg, st, m, r)
    ensures Left(cfg, r) + 1 == Left(cfg, st) && r.stage != FinalPromptAwaitAssistant
    ensures ActionOf(r.stage) == Some(CallModel)
  {
    hide Reach, Spendable, Hides;
  }

  lemma {:induction false} ToolPhaseSpends(cfg: Config, p: TP.Policy, s: RunState, st: State, e: Event)
    requires e.Response? && e.message.role == Assistant && Unmeasured(cfg) && Awaiting(st.stage)
    requires Inv(cfg, st) && CallsPending(st, e.message, s.rt) && Inv(cfg, s.rt) && st.rollbacks <= Spendable(cfg)
    requires PlainUsers(st.view.visible) && (st.stage == FinalPromptAwaitAssistant ==> Trail(cfg, st.view.visible) == 0)
    ensures Spent(cfg, st, ToolPhase(cfg, p, s, e.message.toolCalls.value, e.world))
  {
    hide ApplyToolResults, TP.ExecuteRound, TP.Exhausted, Left, Trail, Spendable, Inv, Unmeasured, Resolve, PlainUsers;
    assert cfg.maxTurns.Some? && Slack(cfg, st) >= 1 by { UnmeasuredLimit(cfg); PacedStart(cfg, st); }
    assert s.rt.pending == e.message.toolCalls.value;
    var calls := e.message.toolCalls.value;
    var (tools, outcomes) := TP.ExecuteRound(p, s.tools, TP.RequestsFor(p, calls), e.world);
    var results, exhausted, rejected := TP.MessagesOf(outcomes), TP.Exhausted(p, tools), TP.RejectedIds(outcomes);
    ResultsAreToolMessages(p, s.tools, calls, e.world);
    if ToolAnswers.Answers(results, calls) {
      ResultsPaced(cfg, st, e.message, s.rt, results, exhausted, rejected);
      var all := Resolve(cfg, calls, results, rejected).value;
      var r := ApplyToolResults(cfg, s.rt, results, exhausted, rejected).st;
      ExchangeSpends(cfg, st, e.message, all, r);
      ShownPlain(cfg, st.view.visible, e.message, all);
    } else {
      WrongAnswersRaise(cfg, s.rt, results, exhausted, rejected);
    }
  }

  lemma UnmeasuredLimit(cfg: Config)
    requires Unmeasured(cfg)
    ensures cfg.maxTurns.Some? && cfg.EarlyStopPrompt() != Some("") && !cfg.MayStop()
  {
  }

  lemma AnswerLeaves(cfg: Config, p: TP.Policy, s: RunState, st: State, e: Event)
    requires Paced(cfg, s) && e.Response?
    requires Inv(cfg, st) && st == s.rt.(view := st.view) && st.view.visible == s.rt.view.visible
    ensures cfg.maxTurns.Some? && Spent(cfg, st, AnsweredTurn(cfg, p, s, st, e))
  {
    hide ApplyAssistant, ToolPhase, Left, Trail, Spendable, Inv, AnswerUndone, Prompted, PlainUsers, Slack, DoneReason;
    UnmeasuredLimit(cfg);
    var m, w := e.message, ApplyAssistant(cfg, st, e.message, e.cutShort);
    if ActionOf(st.stage) == Some(CallModel) && m.role == Assistant {
      AnswerPaced(cfg, st, m, e.cutShort);
      AssistantStep(cfg, st, m, e.cutShort);
      PacedStart(cfg, st);
      if w.error.None? && CallsPending(st, m, w.st) {
        ToolPhaseSpends(cfg, p, Took(s, w.st, Result(w, false).value), st, e);
      } else if w.error.None? && st.stage != FinalPromptAwaitAssistant && Awaiting(st.stage)
        && AnswerUndone(cfg, st, m, w.st) {
        HiddenSpends(cfg, st, m, w.st);
        assert w.st.view == st.view by { UndoneView(cfg, st, m, w.st); }
      } else if prompt, next :| Awaiting(st.stage) && Prompted(cfg, st, m, prompt, next, w.st) {
        PromptedSpends(cfg, st, m, prompt, next, w.st);
      }
    } else {
      RefusedRaises(cfg, st, m, e.cutShort);
    }
  }

  lemma RefusedRaises(cfg: Config, st: State, m: Message, cutShort: bool)
    requires ActionOf(st.stage) != Some(CallModel) || m.role != Assistant
    ensures ApplyAssistant(cfg, st, m, cutShort).error.Some?
  {
    hide Receive, Dispatch;
  }

  lemma UndoneView(cfg: Config, st: State, m: Message, r: State)
    requires AnswerUndone(cfg, st, m, r)
    ensures r.view == st.view
  {
  }

  lemma {:induction false} PromptedSpends(cfg: Config, st: State, m: Message, prompt: Text, next: Stage, r: State)
    requires Unmeasured(cfg) && Awaiting(st.stage) && m.role == Assistant && Prompted(cfg, st, m, prompt, next, r)
    requires st.rollbacks <= Spendable(cfg) && Slack(cfg, st) >= 1 && PlainUsers(st.view.visible)
    ensures Left(cfg, r) + 1 <= Left(cfg, st) && PlainUsers(r.view.visible) && ActionOf(r.stage) == Some(CallModel)
    ensures r.stage == FinalPromptAwaitAssistant ==> Trail(cfg, r.view.visible) == 0
  {
    hide Left, Trail, Spendable, PlainUsers;
    PromptSpends(cfg, st, m, prompt, next, r);
    ShownPlain(cfg, st.view.visible, m, [UserMessage(prompt)]);
  }

  /** A forced end costs a turn and can put in sight no more than was within reach. */
  lemma {:induction false} ForcedSpends(cfg: Config, st: State, r: State)
    requires Unmeasured(cfg) && Awaiting(st.stage) && Slack(cfg, st) >= 1 && st.rollbacks <= Spendable(cfg)
    requires PlainUsers(st.view.visible) && (st.stage == FinalPromptAwaitAssistant ==> Trail(cfg, st.view.visible) == 0)
    requires r.stage == ForceFinalAwaitAssistant
    requires
      var v, w := st.view.visible, cfg.WarningMessages();
      || r.view.visible == v + w
      || (st.stage != FinalPromptAwaitAssistant && r.view.visible == v[..|v| - RollbackSize(v)] + w)
    ensures Left(cfg, r) + 1 <= Left(cfg, st)
  {
    hide Trail, Spendable, Accepting, RollbackSize, Config.WarningMessages;
    WarnedTrail(cfg, st.view.visible);
  }

  lemma RecoverySpends(cfg: Config, st: State, r: State)
    requires cfg.maxTurns.Some? && st.rollbacks <= Spendable(cfg) && (Awaiting(st.stage) ==> Slack(cfg, st) >= 1)
    requires st.stage == ToolMessagesAwaitAssistant || st.stage == ForceFinalAwaitAssistant
    requires LatestExchange(cfg, st.view.visible) > 0
    requires r.stage == ForceFinalAwaitAssistant && r.view.visible == Recovered(cfg, st.view.visible)
    ensures Left(cfg, r) + 1 <= Left(cfg, st)
  {
    hide Spendable, Accepting, RollbackSize, LatestExchange, Recovered;
  }

  lemma ContinueSpends(cfg: Config, s: RunState, w: Work, flag: bool, why: Reason)
    requires cfg.maxTurns.Some? && PlainUsers(w.st.view.visible) && w.st.stage != FinalPromptAwaitAssistant
    requires Left(cfg, w.st) + 1 <= Left(cfg, s.rt)
    ensures Spent(cfg, s.rt, Continue(s, w, flag, why))
  {
    hide Left, PlainUsers, ToDicts;
  }

  lemma ContextSpends(cfg: Config, p: TP.Policy, s: RunState)
    requires Paced(cfg, s) && cfg.maxTurns.Some?
    ensures Spent(cfg, s.rt, Turn(cfg, p, s, ContextLimitError))
  {
    hide AnswerTurn, Left, Trail, RollbackSize, RecoverFromContextError, PlainUsers, Continue;
    var w, flag := RecoverFromContextError(cfg, s.rt), s.rt.stage == ForceFinalAwaitAssistant;
    if Awaiting(s.rt.stage) {
      ContextLeaves(cfg, s);
      ContinueSpends(cfg, s, w, flag, EndedByContextLimit);
    } else {
      ContextEnds(cfg, s);
    }
  }

  /** At the force-final stage a context error ends the run, and past it every recovery raises. */
  lemma ContextEnds(cfg: Config, s: RunState)
    requires Running(cfg, s) && !Awaiting(s.rt.stage)
    ensures
      Continue(s, RecoverFromContextError(cfg, s.rt), s.rt.stage == ForceFinalAwaitAssistant,
               EndedByContextLimit).finished.Some?
  {
    hide RecoverFromContextError, ToDicts;
    if s.rt.stage == TokenExceeded {
      DeadEndRaises(cfg, s.rt);
    }
  }

  lemma ContextLeaves(cfg: Config, s: RunState)
    requires Paced(cfg, s) && cfg.maxTurns.Some? && Awaiting(s.rt.stage)
    ensures
      var r := RecoverFromContextError(cfg, s.rt).st;
      Left(cfg, r) + 1 <= Left(cfg, s.rt) && PlainUsers(r.view.visible) && r.stage != FinalPromptAwaitAssistant
  {
    hide Left, Trail, Spendable, RollbackSize, ForceFinalizeForContext, ToDicts, PlainUsers, Inv;
    UnmeasuredLimit(cfg);
    assert Inv(cfg, s.rt);
    var v := s.rt.view.visible;
    PacedStart(cfg, s.rt);
    InvLog(cfg, s.rt);
    ForceFinalizeEffect(cfg, Begin(s.rt), true);
    assert v[..|v|] == v;
    ForcedSpends(cfg, s.rt, RecoverFromContextError(cfg, s.rt).st);
    CutPlain(cfg, v, |v| - HiddenForContext(s.rt, true));
  }

  lemma InvLog(cfg: Config, st: State)
    requires Inv(cfg, st)
    ensures st.log != []
  {
  }

  lemma CutPlain(cfg: Config, v: seq<Message>, k: nat)
    requires PlainUsers(v) && k <= |v|
    ensures PlainUsers(v[..k] + cfg.WarningMessages())
  {
  }

  lemma EmptySpends(cfg: Config, p: TP.Policy, s: RunState)
    requires Paced(cfg, s) && cfg.maxTurns.Some?
    ensures Spent(cfg, s.rt, Turn(cfg, p, s, EmptyResponseError))
  {
    hide AnswerTurn, Left, RollBackLatestExchange, PlainUsers, Running, Continue, Trail;
    var w := RollBackLatestExchange(cfg, s.rt, ReasonText(EmptyResponse), EmptyResponse);
    if ActionOf(s.rt.stage) != Some(CallModel) {
      EmptyEnds(cfg, s);
    } else if w.Some? {
      EmptyLeaves(cfg, s);
      ContinueSpends(cfg, s, w.value, false, EndedByEmptyResponse);
    }
  }

  lemma EmptyEnds(cfg: Config, s: RunState)
    requires Running(cfg, s) && ActionOf(s.rt.stage) != Some(CallModel)
    ensures
      var w := RollBackLatestExchange(cfg, s.rt, ReasonText(EmptyResponse), EmptyResponse);
      w.Some? && Continue(s, w.value, false, EndedByEmptyResponse).finished.Some?
  {
    hide RollBackLatestExchange, ToDicts;
    DeadEndRefuses(cfg, s.rt);
  }

  lemma EmptyLeaves(cfg: Config, s: RunState)
    requires Paced(cfg, s) && cfg.maxTurns.Some? && ActionOf(s.rt.stage) == Some(CallModel)
    ensures
      var w := RollBackLatestExchange(cfg, s.rt, ReasonText(EmptyResponse), EmptyResponse);
      w.Some? ==>
        var r := w.value.st;
        Left(cfg, r) + 1 <= Left(cfg, s.rt) && PlainUsers(r.view.visible) && r.stage != FinalPromptAwaitAssistant
  {
    hide Left, Trail, Spendable, LatestExchange, RollBackLatestExchange, ToDicts, PlainUsers, Inv;
    assert Inv(cfg, s.rt);
    PacedStart(cfg, s.rt);
    EmptyResponseStep(cfg, s.rt, ReasonText(EmptyResponse), EmptyResponse);
    var w := RollBackLatestExchange(cfg, s.rt, ReasonText(EmptyResponse), EmptyResponse);
    if w.Some? {
      RecoverySpends(cfg, s.rt, w.value.st);
      CutPlain(cfg, s.rt.view.visible, |s.rt.view.visible| - LatestExchange(cfg, s.rt.view.visible));
    }
  }

  lemma SameLeft(cfg: Config, a: State, b: State)
    requires cfg.maxTurns.Some? && a == b.(view := a.view) && a.view.visible == b.view.visible
    ensures Left(cfg, a) == Left(cfg, b)
  {
    hide Trail, Reach, Accepting, Finishing, Spendable;
  }

  /** Every turn of a paced run finishes it or uses up one of the turns left. */
  lemma TurnSpends(cfg: Config, p: TP.Policy, s: RunState, e: Event)
    requires Paced(cfg, s)
    ensures cfg.maxTurns.Some? && Spent(cfg, s.rt, Turn(cfg, p, s, e))
    ensures Turn(cfg, p, s, e).finished.None? ==> Paced(cfg, Turn(cfg, p, s, e))
  {
    hide AnsweredTurn, Left, Running, Observe, Inv;
    UnmeasuredLimit(cfg);
    if Turn(cfg, p, s, e).finished.None? {
      StillRunning(cfg, p, s, e) by { assert Running(cfg, s); }
    }
    match e
    case Response(_, _, tokens, _) =>
      var st := Observe(cfg, s.rt, s.prompt, tokens);
      assert Inv(cfg, s.rt) by { RunningInv(cfg, s); }
      ObserveKeeps(cfg, s.rt, s.prompt, tokens);
      AnswerLeaves(cfg, p, s, st, e);
      SameLeft(cfg, st, s.rt);
    case ContextLimitError => ContextSpends(cfg, p, s);
    case EmptyResponseError => EmptySpends(cfg, p, s);
    case OtherModelError =>
  }

  lemma RunningInv(cfg: Config, s: RunState)
    requires Running(cfg, s)
    ensures Inv(cfg, s.rt) && s.rt.rollbacks <= Spendable(cfg)
  {
  }

  // ---------- The bound ----------

  /** The most turns that a run can take without finishing. */
  ghost function LongestRun(cfg: Config): (n: nat)
    requires cfg.maxTurns.Some?
  {
    var slack := cfg.maxTurns.value - 1;
    if slack <= 0 then 0 else Spendable(cfg) + Max(2 * slack, Accepting(cfg, slack))
  }

  /** What the model sees at the start: no assistant message, and no tool result. */
  predicate Blank(v: seq<Message>) {
    forall i :: 0 <= i < |v| ==> v[i].role != Assistant && v[i].toolCallId.None?
  }

  lemma StartShows(cfg: Config, tools: TP.ToolState, task: Text)
    requires cfg.Ok() && Unmeasured(cfg)
    ensures
      var s := Started(cfg, tools, task);
      && Running(cfg, s) && s.tools == TP.TaskStart(tools) && s.rt.turns == 0 && s.rt.rollbacks == 0
      && Blank(s.rt.view.visible)
      && (s.rt.stage == if cfg.maxTurns.value > 1 then InitialAwaitAssistant else ForceFinalAwaitAssistant)
  {
    hide Opened, Inject, ContextCheckpoint, Exchanges, ToDicts, Running, Potential, LoopBound, Tracks;
    StartRuns(cfg, tools, task);
    OpenedEffect(cfg, task);
    var start := Opened(cfg, FRESH, task);
    CheckpointSkipped(cfg, start);
    if TurnLimitReached(cfg, start.st) {
      InjectEffect(cfg, start, TurnLimit);
    }
    assert cfg.maxTurns.value >= 1;
  }

  lemma {:induction false} BlankTrail(cfg: Config, v: seq<Message>)
    requires Blank(v)
    ensures PlainUsers(v) && Trail(cfg, v) == 0 == Reach(cfg, v) && Trail(cfg, v + cfg.WarningMessages()) == 0
  {
    hide Trail;
    NothingToRecover(cfg, v);
    NothingToRecover(cfg, v + cfg.WarningMessages());
    NothingToRecover(cfg, v[..|v| - RollbackSize(v)] + cfg.WarningMessages());
  }

  lemma {:induction false} StartPaced(cfg: Config, tools: TP.ToolState, task: Text)
    requires cfg.Ok() && Unmeasured(cfg)
    ensures
      var s := Started(cfg, tools, task);
      && Paced(cfg, s) && Left(cfg, s.rt) == LongestRun(cfg)
      && s.tools == TP.TaskStart(tools) && s.rt.turns == 0 && s.rt.rollbacks == 0
      && (cfg.maxTurns.value > 1 ==>
           s.rt.stage == InitialAwaitAssistant && Trail(cfg, s.rt.view.visible + cfg.WarningMessages()) == 0)
  {
    hide Started, Spendable, Accepting, Trail, Reach, Blank, PlainUsers, Running;
    StartShows(cfg, tools, task);
    BlankTrail(cfg, Started(cfg, tools, task).rt.view.visible);
    assert cfg.maxTurns.value >= 1;
  }

  lemma {:induction false} RunSpends(cfg: Config, p: TP.Policy, s: RunState, events: nat -> Event, n: nat)
    requires Paced(cfg, s)
    ensures
      var r := After(cfg, p, s, events, n);
      r.finished.None? ==> Paced(cfg, r) && cfg.maxTurns.Some? && Left(cfg, r.rt) + n <= Left(cfg, s.rt)
  {
    hide Turn, Paced, Left;
    UnmeasuredLimit(cfg) by { assert Paced(cfg, s); PacedMeaning(cfg, s); }
    if n > 0 {
      RunSpends(cfg, p, s, events, n - 1);
      var before := After(cfg, p, s, events, n - 1);
      if before.finished.None? {
        TurnSpends(cfg, p, before, events(n - 1));
      }
    }
  }

  lemma PacedMeaning(cfg: Config, s: RunState)
    requires Paced(cfg, s)
    ensures Unmeasured(cfg) && Running(cfg, s) && Left(cfg, s.rt) >= 0
  {
    hide Trail, Accepting, RollbackSize, Inv;
    assert Inv(cfg, s.rt);
    PacedStart(cfg, s.rt);
  }

  /** No run is longer, whatever the model, its errors and the tools do. */
  lemma {:induction false} NoRunIsLonger(cfg: Config, p: TP.Policy, tools: TP.ToolState, task: Text,
                                         events: nat -> Event, n: nat)
    requires cfg.Ok() && Unmeasured(cfg) && n > LongestRun(cfg)
    ensures After(cfg, p, Started(cfg, tools, task), events, n).finished.Some?
  {
    hide Started, After, Paced, Left, LongestRun;
    StartPaced(cfg, tools, task);
    var s := Started(cfg, tools, task);
    RunSpends(cfg, p, s, events, n);
    if After(cfg, p, s, events, n).finished.None? {
      PacedMeaning(cfg, After(cfg, p, s, events, n));
    }
  }

  // ---------- Some run is as long ----------

  /** Some events keep the run going for `n` more turns. */
  ghost predicate Lasts(cfg: Config, p: TP.Policy, s: RunState, n: nat) {
    exists events: nat -> Event :: After(cfg, p, s, events, n).finished.None?
  }

  function First(e: Event, events: nat -> Event): nat -> Event {
    (i: nat) => if i == 0 then e else events(i - 1)
  }

  lemma {:induction false} AfterFirst(cfg: Config, p: TP.Policy, s: RunState, e: Event, events: nat -> Event, n: nat)
    requires s.finished.None?
    ensures After(cfg, p, s, First(e, events), n + 1) == After(cfg, p, Turn(cfg, p, s, e), events, n)
  {
    hide Turn;
    if n == 0 {
      assert After(cfg, p, s, First(e, events), 0) == s;
    } else {
      AfterFirst(cfg, p, s, e, events, n - 1);
      assert First(e, events)(n) == events(n - 1);
    }
  }

  lemma LastsLonger(cfg: Config, p: TP.Policy, s: RunState, e: Event, n: nat)
    requires s.finished.None? && n > 0 && Lasts(cfg, p, Turn(cfg, p, s, e), n - 1)
    ensures Lasts(cfg, p, s, n)
  {
    hide Turn, After;
    var events: nat -> Event :| After(cfg, p, Turn(cfg, p, s, e), events, n - 1).finished.None?;
    AfterFirst(cfg, p, s, e, events, n - 1);
    assert After(cfg, p, s, First(e, events), n).finished.None?;
  }

  lemma LastsNow(cfg: Config, p: TP.Policy, s: RunState)
    requires s.finished.None?
    ensures Lasts(cfg, p, s, 0)
  {
    hide Turn;
    assert After(cfg, p, s, (i: nat) => OtherModelError, 0) == s;
  }

  /** Forced to finish with `k` exchanges in sight, the model may return nothing `k` times. */
  lemma {:induction false} ForcedLasts(cfg: Config, p: TP.Policy, name: string, s: RunState, base: seq<Message>, k: nat,
                                       n: nat)
    requires Unmeasured(cfg) && Running(cfg, s) && s.rt.stage == ForceFinalAwaitAssistant && n <= k
    requires s.rt.view.visible == base + ExchangesOf(p, name, k) + cfg.WarningMessages()
    ensures Lasts(cfg, p, s, n)
    decreases n
  {
    hide Turn, Lasts, After, Running, Unmeasured, CallingMessage, Answer, Config.WarningMessages;
    RunningUnfinished(cfg, s);
    if n == 0 {
      LastsNow(cfg, p, s);
    } else {
      var v := base + ExchangesOf(p, name, k - 1);
      OneMoreExchange(p, name, k, base, cfg.WarningMessages());
      EmptyTurn(cfg, p, name, s, v);
      StillRunning(cfg, p, s, EmptyResponseError);
      ForcedLasts(cfg, p, name, Turn(cfg, p, s, EmptyResponseError), base, k - 1, n - 1);
      LastsLonger(cfg, p, s, EmptyResponseError, n);
    }
  }

  lemma OneMoreExchange(p: TP.Policy, name: string, k: nat, base: seq<Message>, rest: seq<Message>)
    requires k > 0
    ensures base + ExchangesOf(p, name, k) + rest
         == (base + ExchangesOf(p, name, k - 1)) + [CallingMessage(name)] + [Answer(p, name)] + rest
  {
    hide CallingMessage, Answer;
  }

  lemma RunningUnfinished(cfg: Config, s: RunState)
    requires Running(cfg, s)
    ensures s.finished.None?
  {
  }

  /** An accepted answer leads to the final round. */
  lemma SilenceTurn(cfg: Config, p: TP.Policy, s: RunState)
    requires Unmeasured(cfg) && Running(cfg, s) && Prompts(cfg) && Slack(cfg, s.rt) >= 2
    requires s.rt.stage == InitialAwaitAssistant || s.rt.stage == ToolMessagesAwaitAssistant
    ensures
      var r := Turn(cfg, p, s, Silence());
      && r.finished.None? && r.tools == s.tools && r.rt.stage == FinalPromptAwaitAssistant
      && r.rt.turns == s.rt.turns + 1 && r.rt.rollbacks == 0
      && r.rt.view.visible == s.rt.view.visible + [SILENT] + [UserMessage(Plain(cfg.finalPrompt.value))]
  {
    hide ApplyAssistant, Inv, Tracks, ToDicts;
    assert Inv(cfg, s.rt);
    SilenceAccepted(cfg, s.rt);
    InvReports(cfg, ApplyAssistant(cfg, s.rt, SILENT, false), false);
  }

  lemma SilenceAccepted(cfg: Config, st: State)
    requires Unmeasured(cfg) && Inv(cfg, st) && Prompts(cfg) && Slack(cfg, st) >= 2
    requires st.stage == InitialAwaitAssistant || st.stage == ToolMessagesAwaitAssistant
    ensures
      var w := ApplyAssistant(cfg, st, SILENT, false);
      && w.error.None? && Inv(cfg, w.st) && w.st.stage == FinalPromptAwaitAssistant
      && w.st.turns == st.turns + 1 && w.st.rollbacks == 0
      && w.st.view.visible == st.view.visible + [SILENT] + [UserMessage(Plain(cfg.finalPrompt.value))]
  {
    hide Receive, Append, Inject, GenerationCheck, Inv, Tracks, ViewReplay;
    AnswerReceived(cfg, st, SILENT);
    var w := Receive(st, SILENT);
    NoGenerationCheck(cfg, w, true, false);
    TextStep(cfg, st, SILENT, w) by { assert Awaiting(st.stage); }
    AppendPlain(w.(st := w.st.(rollbacks := 0)), [UserMessage(Plain(cfg.finalPrompt.value))]);
  }

  /** `k` exchanges stand on top of a conversation without any to recover. */
  predicate Shows(cfg: Config, p: TP.Policy, name: string, s: RunState, base: seq<Message>, k: nat) {
    s.rt.view.visible == base + ExchangesOf(p, name, k) && Trail(cfg, base + cfg.WarningMessages()) == 0
  }

  lemma AcceptingChoice(cfg: Config, slack: int)
    ensures
      || Accepting(cfg, slack) <= 1
      || (Prompts(cfg) && slack >= 2
          && (Accepting(cfg, slack) == 1 + Finishing(cfg, slack - 1)
              || Accepting(cfg, slack) == 1 + Accepting(cfg, slack - 1)))
  {
  }

  /** From a free answer with `k` exchanges in sight, a run can last as long as it may. */
  lemma {:induction false} FreeLasts(cfg: Config, p: TP.Policy, name: string, text: Text, s: RunState,
                                     base: seq<Message>, k: nat, n: nat)
    requires Unmeasured(cfg) && Running(cfg, s) && Roomy(p, s.tools, name) && Shows(cfg, p, name, s, base, k)
    requires s.rt.stage == InitialAwaitAssistant || s.rt.stage == ToolMessagesAwaitAssistant
    requires Spendable(cfg) > 0 ==> Hides(cfg, text)
    requires PlainUsers(base)
    requires n <= Spendable(cfg) - s.rt.rollbacks + Max(k + 2 * Slack(cfg, s.rt), Accepting(cfg, Slack(cfg, s.rt)))
    ensures Lasts(cfg, p, s, n)
    decreases n
  {
    hide Turn, Lasts, After, Roomy, Hides, Spendable, Trail, Shows, PlainUsers, Accepting, Finishing, Running;
    RunningUnfinished(cfg, s);
    var slack := Slack(cfg, s.rt);
    AcceptingChoice(cfg, slack);
    assert s.rt.rollbacks <= Spendable(cfg) by { RunningInv(cfg, s); }
    assert slack >= 1 by { RunningInv(cfg, s); PacedStart(cfg, s.rt); }
    if n == 0 {
      LastsNow(cfg, p, s);
    } else if s.rt.rollbacks < Spendable(cfg) {
      HideOnce(cfg, p, name, text, s, base, k);
      FreeLasts(cfg, p, name, text, Turn(cfg, p, s, Saying(text)), base, k, n - 1);
      LastsLonger(cfg, p, s, Saying(text), n);
    } else if n <= k + 2 * slack || Accepting(cfg, slack) != 1 + Finishing(cfg, slack - 1) {
      CallOnce(cfg, p, name, s, base, k);
      var r := Turn(cfg, p, s, Calling(name));
      if slack == 1 {
        ForcedLasts(cfg, p, name, r, base, k + 1, n - 1);
      } else {
        FreeLasts(cfg, p, name, text, r, base, k + 1, n - 1);
      }
      LastsLonger(cfg, p, s, Calling(name), n);
    } else {
      assert PlainUsers(s.rt.view.visible) by { ShownPlainly(cfg, p, name, s, base, k); }
      AcceptOnce(cfg, p, name, s);
      var r := Turn(cfg, p, s, Silence());
      FinalLasts(cfg, p, name, text, r, n - 1);
      LastsLonger(cfg, p, s, Silence(), n);
    }
  }

  /** From the final round, the same: only a call keeps the run going. */
  lemma {:induction false} FinalLasts(cfg: Config, p: TP.Policy, name: string, text: Text, s: RunState, n: nat)
    requires Unmeasured(cfg) && Running(cfg, s) && Roomy(p, s.tools, name)
    requires s.rt.stage == FinalPromptAwaitAssistant && s.rt.rollbacks == 0
    requires Spendable(cfg) > 0 ==> Hides(cfg, text)
    requires PlainUsers(s.rt.view.visible) && Trail(cfg, s.rt.view.visible + cfg.WarningMessages()) == 0
    requires n <= Finishing(cfg, Slack(cfg, s.rt))
    ensures Lasts(cfg, p, s, n)
    decreases n
  {
    hide Turn, Lasts, After, Roomy, Hides, Spendable, Trail, Shows, PlainUsers, Accepting, Running;
    RunningUnfinished(cfg, s);
    var slack, base := Slack(cfg, s.rt), s.rt.view.visible;
    assert slack >= 1 by { RunningInv(cfg, s); PacedStart(cfg, s.rt); }
    if n == 0 {
      LastsNow(cfg, p, s);
    } else {
      assert Shows(cfg, p, name, s, base, 0) by { NothingShown(cfg, p, name, s); }
      CallOnce(cfg, p, name, s, base, 0);
      var r := Turn(cfg, p, s, Calling(name));
      if slack == 1 {
        ForcedLasts(cfg, p, name, r, base, 1, n - 1);
      } else {
        FreeLasts(cfg, p, name, text, r, base, 1, n - 1);
      }
      LastsLonger(cfg, p, s, Calling(name), n);
    }
  }

  lemma ShownPlainly(cfg: Config, p: TP.Policy, name: string, s: RunState, base: seq<Message>, k: nat)
    requires Shows(cfg, p, name, s, base, k) && PlainUsers(base)
    ensures PlainUsers(s.rt.view.visible)
  {
    hide Trail;
    PlainExchanges(p, name, k);
  }

  lemma {:induction false} PlainExchanges(p: TP.Policy, name: string, k: nat)
    ensures PlainUsers(ExchangesOf(p, name, k))
  {
    if k > 0 {
      PlainExchanges(p, name, k - 1);
    }
  }

  lemma {:induction false} NothingShown(cfg: Config, p: TP.Policy, name: string, s: RunState)
    requires Trail(cfg, s.rt.view.visible + cfg.WarningMessages()) == 0
    ensures Shows(cfg, p, name, s, s.rt.view.visible, 0)
  {
    hide Trail;
    assert s.rt.view.visible + [] == s.rt.view.visible;
  }

  lemma HideOnce(cfg: Config, p: TP.Policy, name: string, text: Text, s: RunState, base: seq<Message>, k: nat)
    requires Unmeasured(cfg) && Running(cfg, s) && Roomy(p, s.tools, name) && Shows(cfg, p, name, s, base, k)
    requires s.rt.stage == InitialAwaitAssistant || s.rt.stage == ToolMessagesAwaitAssistant
    requires Hides(cfg, text) && s.rt.rollbacks < Spendable(cfg)
    ensures
      var r := Turn(cfg, p, s, Saying(text));
      && Running(cfg, r) && Roomy(p, r.tools, name) && Shows(cfg, p, name, r, base, k)
      && r.rt.stage == s.rt.stage && r.rt.turns == s.rt.turns && r.rt.rollbacks == s.rt.rollbacks + 1
  {
    hide Turn, Running, Roomy, Trail, Hides;
    SayingTurn(cfg, p, s, text);
    StillRunning(cfg, p, s, Saying(text));
  }

  lemma {:induction false} CallOnce(cfg: Config, p: TP.Policy, name: string, s: RunState, base: seq<Message>, k: nat)
    requires Unmeasured(cfg) && Running(cfg, s) && Roomy(p, s.tools, name) && Shows(cfg, p, name, s, base, k)
    requires Awaiting(s.rt.stage)
    ensures
      var r := Turn(cfg, p, s, Calling(name));
      && Running(cfg, r) && Roomy(p, r.tools, name)
      && r.rt.turns == s.rt.turns + 1 && r.rt.rollbacks == s.rt.rollbacks
      && (if Slack(cfg, s.rt) == 1
          then r.rt.stage == ForceFinalAwaitAssistant
               && r.rt.view.visible == base + ExchangesOf(p, name, k + 1) + cfg.WarningMessages()
          else r.rt.stage == ToolMessagesAwaitAssistant && Shows(cfg, p, name, r, base, k + 1))
  {
    hide Turn, Running, Roomy, Trail;
    CallingTurn(cfg, p, name, s);
    StillRunning(cfg, p, s, Calling(name));
    assert base + ExchangesOf(p, name, k + 1)
        == base + ExchangesOf(p, name, k) + [CallingMessage(name)] + [Answer(p, name)];
  }

  lemma {:induction false} AcceptOnce(cfg: Config, p: TP.Policy, name: string, s: RunState)
    requires Unmeasured(cfg) && Running(cfg, s) && Roomy(p, s.tools, name) && Prompts(cfg) && Slack(cfg, s.rt) >= 2
    requires s.rt.stage == InitialAwaitAssistant || s.rt.stage == ToolMessagesAwaitAssistant
    requires PlainUsers(s.rt.view.visible)
    ensures
      var r := Turn(cfg, p, s, Silence());
      && Running(cfg, r) && Roomy(p, r.tools, name) && r.rt.stage == FinalPromptAwaitAssistant
      && r.rt.turns == s.rt.turns + 1 && r.rt.rollbacks == 0
      && PlainUsers(r.rt.view.visible) && Trail(cfg, r.rt.view.visible + cfg.WarningMessages()) == 0
  {
    hide Turn, Running, Roomy, Trail;
    UnmeasuredLimit(cfg);
    SilenceTurn(cfg, p, s);
    StillRunning(cfg, p, s, Silence());
    PromptedTrail(cfg, s.rt.view.visible, SILENT, Plain(cfg.finalPrompt.value));
  }

  /** The longest run is attained. */
  lemma LongestRunIsAttained(cfg: Config, p: TP.Policy, tools: TP.ToolState, task: Text, name: string, n: nat)
    requires cfg.Ok() && Unmeasured(cfg) && Roomy(p, TP.TaskStart(tools), name) && n <= LongestRun(cfg)
    ensures Lasts(cfg, p, Started(cfg, tools, task), n)
  {
    hide Started, Lasts, Roomy, Trail, Accepting, Hides, Running, PlainUsers, Left;
    StartPaced(cfg, tools, task);
    var s := Started(cfg, tools, task);
    assert s.finished.None? by { RunningUnfinished(cfg, s); }
    if n == 0 {
      LastsNow(cfg, p, s);
    } else {
      var text :| Spendable(cfg) > 0 ==> Hides(cfg, text);
      NothingShown(cfg, p, name, s);
      FreeLasts(cfg, p, name, text, s, s.rt.view.visible, 0, n);
    }
  }

  // ---------- When the cap fires ----------

  /** Where nothing measures the context, some run meets the safety cap exactly when the longest run is longer than
      the cap allows. */
  lemma {:induction false} CapFiresExactly(cfg: Config, p: TP.Policy, tools: TP.ToolState, task: Text, name: string)
    requires cfg.Ok() && Unmeasured(cfg) && Roomy(p, TP.TaskStart(tools), name)
    ensures
      (exists events: nat -> Event, n: nat ::
         Capped(cfg, p, Started(cfg, tools, task), events, n).finished == Some(SafetyLimit))
      <==> LongestRun(cfg) >= SafetyCap(cfg)
  {
    hide Turn, Started, After, Capped, Roomy, LongestRun;
    var s, cap := Started(cfg, tools, task), SafetyCap(cfg);
    if LongestRun(cfg) >= cap {
      LongestRunIsAttained(cfg, p, tools, task, name, cap);
      var events: nat -> Event :| After(cfg, p, s, events, cap).finished.None?;
      CapStops(cfg, p, s, events);
    } else {
      forall events: nat -> Event, n: nat ensures Capped(cfg, p, s, events, n).finished != Some(SafetyLimit) {
        forall k: nat | k >= cap ensures After(cfg, p, s, events, k).finished.Some? {
          NoRunIsLonger(cfg, p, tools, task, events, k);
        }
        CappedIsAfter(cfg, p, s, events, n);
        StartRuns(cfg, tools, task);
        RunKeeps(cfg, p, s, events, n);
      }
    }
  }

  lemma {:induction false} CapStops(cfg: Config, p: TP.Policy, s: RunState, events: nat -> Event)
    requires After(cfg, p, s, events, SafetyCap(cfg)).finished.None?
    ensures Capped(cfg, p, s, events, SafetyCap(cfg)).finished == Some(SafetyLimit)
  {
    hide Turn;
    CappedIsAfter(cfg, p, s, events, SafetyCap(cfg) - 1);
  }

  /** Without a final-response prompt, as by default, that is when the permitted turns and the rollbacks that
      answers can spend reach 202 together. */
  lemma {:induction false} CapFiresFrom202(cfg: Config, p: TP.Policy, tools: TP.ToolState, task: Text, name: string)
    requires cfg.Ok() && Unmeasured(cfg) && cfg.finalPrompt.None? && Roomy(p, TP.TaskStart(tools), name)
    ensures
      (exists events: nat -> Event, n: nat ::
         Capped(cfg, p, Started(cfg, tools, task), events, n).finished == Some(SafetyLimit))
      <==> cfg.maxTurns.value >= 2 && cfg.maxTurns.value + Spendable(cfg) >= 202
  {
    hide Started, Capped, Roomy, Spendable;
    CapFiresExactly(cfg, p, tools, task, name);
    AcceptingSteps(cfg, cfg.maxTurns.value - 1);
  }
}
