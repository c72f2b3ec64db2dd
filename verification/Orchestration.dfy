/** The orchestrator's loop: one model event per turn, driving the runtime and the tool manager. */
module Orchestration {
  import opened Messages
  import opened Visibility
  import opened TrackedView
  import opened Stages
  import opened ContextBudget
  import opened ToolAnswers
  import opened RuntimeSpec
  import opened RuntimeLaws
  import opened RuntimeSteps
  import TP = ToolPolicy

  /** What calling the model can bring: an answer (with the world's behaviour towards its tool calls) or one of
      three kinds of error. */
  datatype Event =
    | Response(message: Message, cutShort: bool, inputTokens: Option<int>, world: nat -> TP.Behaviour)
    | ContextLimitError
    | EmptyResponseError
    | OtherModelError

  /** Why a run ended. `Crashed` is an exception that leaves the loop. */
  datatype Reason =
    | FinalAnswer
    | EndedByContextLimit
    | EndedByTurnLimit
    | EndedByToolsExhausted
    | EndedByEmptyResponse
    | ForcedCompletion
    | CallsRejected
    | EndedByTokens
    | AtStage(stage: Stage)
    | ModelError
    | SafetyLimit
    | Crashed(error: Error)

  /** The runtime, the tool manager's state, the visible conversation of the last step (the next prompt),
      the trace persisted so far, and the reason to stop, if any. */
  datatype RunState = RunState(rt: State, tools: TP.ToolState, prompt: seq<Message>, trace: seq<Dict>,
                               finished: Option<Reason>)

  function DoneReason(stage: Stage, trigger: Option<Trigger>): Reason {
    match stage
    case Completed => FinalAnswer
    case ForceCompleted =>
      (match trigger
       case Some(ContextLimit) => EndedByContextLimit
       case Some(TurnLimit) => EndedByTurnLimit
       case Some(ToolsExhausted) => EndedByToolsExhausted
       case Some(EmptyResponse) => EndedByEmptyResponse
       case None => ForcedCompletion)
    case ToolCallsRejected => CallsRejected
    case TokenExceeded => EndedByTokens
    case _ => AtStage(stage)
  }

  /** A step's result is persisted and becomes the next prompt. */
  function Took(s: RunState, rt: State, step: StepResult): RunState {
    s.(rt := rt, prompt := step.visible, trace := s.trace + ToDicts(step.appended))
  }

  function Crash(s: RunState, rt: State, e: Error): RunState {
    s.(rt := rt, finished := Some(Crashed(e)))
  }

  /** Take a step, and stop for `reason` if it does not ask for the model again. */
  function Continue(s: RunState, w: Work, flag: bool, reason: Reason): RunState {
    match Result(w, flag)
    case Raised(e) => Crash(s, w.st, e)
    case Ok(step) =>
      var s1 := Took(s, w.st, step);
      if step.action == CallModel && !flag then s1 else s1.(finished := Some(reason))
  }

  ghost function ToolPhase(cfg: Config, p: TP.Policy, s: RunState, calls: seq<ToolCall>,
                           world: nat -> TP.Behaviour): RunState {
    var (tools, outcomes) := TP.ExecuteRound(p, s.tools, TP.RequestsFor(p, calls), world);
    var w := ApplyToolResults(cfg, s.rt, TP.MessagesOf(outcomes), TP.Exhausted(p, tools), TP.RejectedIds(outcomes));
    var s1 := s.(tools := tools);
    match Result(w, false)
    case Raised(e) => Crash(s1, w.st, e)
    case Ok(step) => Took(s1, w.st, step)
  }

  /** The turn, once the provider's token count has been recorded. */
  ghost function AnsweredTurn(cfg: Config, p: TP.Policy, s: RunState, st: State, e: Event): RunState
    requires e.Response?
  {
    var w := ApplyAssistant(cfg, st, e.message, e.cutShort);
    match Result(w, false)
    case Raised(err) => Crash(s, w.st, err)
    case Ok(step) =>
      var s1 := Took(s, w.st, step);
      match step.action
      case ExecuteTools =>
        ToolPhase(cfg, p, s1, if e.message.HasToolCalls() then e.message.toolCalls.value else [], e.world)
      case Finish => s1.(finished := Some(DoneReason(step.stage, step.trigger)))
      case CallModel => s1
  }

  ghost function AnswerTurn(cfg: Config, p: TP.Policy, s: RunState, e: Event): RunState
    requires e.Response?
  {
    AnsweredTurn(cfg, p, s, Observe(cfg, s.rt, s.prompt, e.inputTokens), e)
  }

  ghost function Turn(cfg: Config, p: TP.Policy, s: RunState, e: Event): RunState {
    match e
    case Response(_, _, _, _) => AnswerTurn(cfg, p, s, e)
    case ContextLimitError =>
      Continue(s, RecoverFromContextError(cfg, s.rt), s.rt.stage == ForceFinalAwaitAssistant, EndedByContextLimit)
    case EmptyResponseError =>
      var w := RollBackLatestExchange(cfg, s.rt, ReasonText(EmptyResponse), EmptyResponse);
      if w.None? then s.(finished := Some(EndedByEmptyResponse))
      else Continue(s, w.value, false, EndedByEmptyResponse)
    case OtherModelError => s.(finished := Some(ModelError))
  }

  /** The run before its first turn. */
  function Started(cfg: Config, tools: TP.ToolState, task: Text): RunState {
    var w := Initialize(cfg, FRESH, task);
    RunState(w.st, TP.TaskStart(tools), w.st.view.visible, ToDicts(w.appended), None)
  }

  /** `n` turns of the loop, without its safety cap; a finished run stays as it is. */
  ghost function After(cfg: Config, p: TP.Policy, s: RunState, events: nat -> Event, n: nat): RunState {
    if n == 0 then s
    else
      var before := After(cfg, p, s, events, n - 1);
      if before.finished.Some? then before else Turn(cfg, p, before, events(n - 1))
  }

  // ---------- The invariant of a run ----------

  /** The rollbacks that the answers of a run can spend: none if no text is ever hidden. */
  ghost function Spendable(cfg: Config): (n: nat)
    ensures n <= cfg.maxRollbacks
  {
    if exists text :: Hides(cfg, text) then cfg.maxRollbacks else 0
  }

  /** The runtime keeps its invariant, the next prompt is what it shows, and the trace is its whole log. */
  ghost predicate Kept(cfg: Config, s: RunState) {
    Inv(cfg, s.rt) && s.prompt == s.rt.view.visible && s.trace == ToDicts(s.rt.log)
  }

  /** Between two turns, the runtime waits for the model (or has stopped on the generation minimum, which the
      loop does not notice). */
  ghost predicate Running(cfg: Config, s: RunState) {
    && s.finished.None? && Kept(cfg, s)
    && (ActionOf(s.rt.stage) == Some(CallModel) || (s.rt.stage == TokenExceeded && cfg.MayStop()))
    && s.rt.rollbacks <= Spendable(cfg)
  }

  lemma ToDictsConcat(a: seq<Message>, b: seq<Message>)
    ensures ToDicts(a + b) == ToDicts(a) + ToDicts(b)
  {
  }

  lemma TookKeeps(cfg: Config, s: RunState, w: Work, flag: bool)
    requires w.error.None? && Tracks(w) && Inv(cfg, w.st)
    requires s.trace == ToDicts(w.base.log)
    ensures
      && Result(w, flag).Ok?
      && var s1 := Took(s, w.st, Result(w, flag).value);
         s1.prompt == w.st.view.visible && s1.trace == ToDicts(w.st.log) && s1.rt == w.st
  {
    hide Tracks, Inv, ToDicts;
    assert ActionOf(w.st.stage).Some? by { InvReports(cfg, w, flag); }
    assert w.st.log == w.base.log + w.appended by { TracksLog(w); }
    ToDictsConcat(w.base.log, w.appended);
  }

  lemma TracksLog(w: Work)
    requires Tracks(w)
    ensures w.st.log == w.base.log + w.appended
  {
  }

  lemma ObserveKeeps(cfg: Config, st: State, visible: seq<Message>, inputTokens: Option<int>)
    requires Inv(cfg, st)
    ensures
      var r := Observe(cfg, st, visible, inputTokens);
      Inv(cfg, r) && r == st.(view := r.view) && r.view.visible == st.view.visible
  {
  }

  // ---------- Progress ----------

  /** Turns are weighted so that a turn outweighs what it can give back: one more exchange to recover from, and
      all rollbacks where a final-response prompt resets their count. */
  ghost function Weight(cfg: Config): nat {
    if cfg.finalPrompt.None? then 2 else Spendable(cfg) + 2
  }

  /** How many more turns a run can take, at most. */
  ghost function Potential(cfg: Config, st: State): int
    requires cfg.maxTurns.Some?
  {
    Exchanges(st.view.visible)
      + (if Awaiting(st.stage)
         then Weight(cfg) * (cfg.maxTurns.value - 1 - st.turns) + (Spendable(cfg) - st.rollbacks) else 0)
  }

  /** The most turns that a run can take without finishing. */
  ghost function LoopBound(cfg: Config): int
    requires cfg.maxTurns.Some?
  {
    if cfg.maxTurns.value <= 1 then 0 else Weight(cfg) * (cfg.maxTurns.value - 1) + Spendable(cfg)
  }

  lemma PotentialNonNegative(cfg: Config, st: State)
    requires Inv(cfg, st) && st.rollbacks <= Spendable(cfg) && cfg.maxTurns.Some?
    ensures Potential(cfg, st) >= 0
    ensures Awaiting(st.stage) ==> Potential(cfg, st) >= Exchanges(st.view.visible) + Weight(cfg)
  {
    if Awaiting(st.stage) {
      var slack := cfg.maxTurns.value - 1 - st.turns;
      assert slack >= 1;
      assert Weight(cfg) * slack >= Weight(cfg) * 1;
    }
  }

  lemma OneTurnLess(weight: nat, slack: int)
    ensures weight * (slack - 1) == weight * slack - weight
  {
  }

  /** The turn went on, and the potential dropped. */
  ghost predicate WentOn(cfg: Config, before: State, s: RunState) {
    Running(cfg, s) && (cfg.maxTurns.Some? ==> Potential(cfg, s.rt) < Potential(cfg, before))
  }

  /** Every reason that a turn can give is a specific one. */
  predicate Specific(r: Reason) {
    r != ForcedCompletion && !r.AtStage? && r != SafetyLimit
  }

  /** The model keeps to its format: it answers as the assistant, and its tool calls have ids. */
  predicate WellFormed(e: Event) {
    e.Response? ==>
      && e.message.role == Assistant
      && (e.message.HasToolCalls() ==>
           forall i :: 0 <= i < |e.message.toolCalls.value| ==> e.message.toolCalls.value[i].id != "")
  }

  /** A configuration under which no step can raise. */
  predicate Safe(cfg: Config) {
    !cfg.MayStop() && cfg.finalPrompt != Some("")
  }

  /** The turn ended in an exception that leaves the loop. */
  predicate HasCrashed(s: RunState) {
    s.finished.Some? && s.finished.value.Crashed?
  }

  predicate EmptyId(calls: Option<seq<ToolCall>>) {
    calls.Some? && exists i :: 0 <= i < |calls.value| && calls.value[i].id == ""
  }

  predicate AnswerCrashes(cfg: Config, st: State, e: Event)
    requires e.Response?
  {
    || ActionOf(st.stage) != Some(CallModel) || e.message.role != Assistant
    || AnswerRaises(cfg, st, e.message, e.cutShort)
    || (CallsAccepted(cfg, st, e.message, e.cutShort) && EmptyId(e.message.toolCalls))
  }

  /** The events on which a running run crashes: any use of the runtime after a tool phase has ended it, an answer
      that is not the assistant's, an accepted text that meets an empty final-response prompt, accepted tool calls
      of which one has no id, and a context error with no way out. */
  predicate Crashes(cfg: Config, s: RunState, e: Event) {
    match e
    case Response(_, _, tokens, _) => AnswerCrashes(cfg, Observe(cfg, s.rt, s.prompt, tokens), e)
    case ContextLimitError => s.rt.stage == TokenExceeded || RecoveryRaises(cfg, s.rt)
    case EmptyResponseError => s.rt.stage == TokenExceeded
    case OtherModelError => false
  }

  lemma SafeNeverCrashes(cfg: Config, s: RunState, e: Event)
    requires Running(cfg, s) && Safe(cfg) && WellFormed(e)
    ensures !Crashes(cfg, s, e)
  {
    hide Inv, ToDicts, GenerationCheck;
    match e
    case Response(_, _, tokens, _) =>
      ObserveStage(cfg, s.rt, s.prompt, tokens);
    case ContextLimitError =>
      if RecoveryRaises(cfg, s.rt) {
        RecoveryNeedsMinimum(cfg, s.rt);
      }
    case _ =>
  }

  lemma ObserveStage(cfg: Config, st: State, visible: seq<Message>, inputTokens: Option<int>)
    ensures Observe(cfg, st, visible, inputTokens).stage == st.stage
  {
  }

  predicate TurnsWithin(cfg: Config, st: State) {
    cfg.maxTurns.Some? ==> st.turns <= cfg.maxTurns.value
  }

  /** What one turn does to a running run. */
  ghost predicate TurnOk(cfg: Config, before: State, s: RunState, crashes: bool) {
    && (s.finished.None? ==> WentOn(cfg, before, s))
    && (s.finished.Some? ==> Specific(s.finished.value))
    && (HasCrashed(s) <==> crashes)
    && (!crashes ==> Kept(cfg, s))
    && TurnsWithin(cfg, s.rt)
  }

  lemma EndedDrops(cfg: Config, before: State, mid: State, after: State)
    requires Inv(cfg, before) && before.rollbacks <= Spendable(cfg) && Awaiting(before.stage) && cfg.maxTurns.Some?
    requires Ended(cfg, mid, after) && Exchanges(mid.view.visible) <= Exchanges(before.view.visible) + 1
    ensures Potential(cfg, after) < Potential(cfg, before)
  {
    hide Inv, Exchanges;
    assert Potential(cfg, before) >= Exchanges(before.view.visible) + Weight(cfg) by {
      PotentialNonNegative(cfg, before);
    }
    EndedExchanges(cfg, mid, after);
    assert !Awaiting(after.stage);
  }

  /** A turn that stands costs its weight. */
  lemma TurnDrops(cfg: Config, before: State, after: State)
    requires cfg.maxTurns.Some? && Awaiting(before.stage) && Awaiting(after.stage)
    requires before.rollbacks <= Spendable(cfg) && after.turns == before.turns + 1
    requires Exchanges(after.view.visible) <= Exchanges(before.view.visible) + 1
    requires after.rollbacks == before.rollbacks || (after.rollbacks == 0 && cfg.finalPrompt.Some?
               && Exchanges(after.view.visible) <= Exchanges(before.view.visible))
    ensures Potential(cfg, after) < Potential(cfg, before)
  {
    OneTurnLess(Weight(cfg), cfg.maxTurns.value - 1 - before.turns);
  }

  // ---------- Tool phase ----------

  lemma WrongAnswersRaise(cfg: Config, st: State, results: seq<Message>, exhausted: bool, rejected: set<string>)
    requires !Answers(results, st.pending)
    ensures
      var w := ApplyToolResults(cfg, st, results, exhausted, rejected);
      Result(w, false).Raised? && w.st == st.(pending := [])
  {
  }

  lemma {:induction false} ResultsExchanges(v: seq<Message>, all: seq<Message>)
    requires AllTool(all)
    ensures Exchanges(v + all) == Exchanges(v)
  {
    ExchangesConcat(v, all);
    NoExchanges(all);
  }

  /** Tool results spend the turn of the calls: the potential drops from what it was before the answer. */
  lemma ResultsDrop(cfg: Config, st: State, m: Message, called: State, all: seq<Message>, w: Work, r: State)
    requires Inv(cfg, st) && Awaiting(st.stage) && m.role == Assistant && CallsPending(st, m, called)
    requires AllTool(all) && ResultsArrived(called, all, w) && ResultsEffect(cfg, called, all, w, r)
    requires cfg.maxTurns.Some? && st.rollbacks <= Spendable(cfg)
    ensures Potential(cfg, r) < Potential(cfg, st)
  {
    hide Exchanges, Potential, PassesCheckpoint, Replay;
    AnswerExchanges(st.view.visible, m);
    ResultsExchanges(st.view.visible + [m], all);
    if Ended(cfg, w.st, r) {
      EndedDrops(cfg, st, w.st, r);
    } else {
      TurnDrops(cfg, st, r);
    }
  }

  lemma ResultsAction(cfg: Config, st: State, all: seq<Message>, w: Work, r: State)
    requires ResultsArrived(st, all, w) && ResultsEffect(cfg, st, all, w, r)
    ensures ActionOf(r.stage) == Some(CallModel) || (r.stage == TokenExceeded && cfg.MayStop())
    ensures r.rollbacks == st.rollbacks
  {
  }

  lemma ToolPhaseOk(cfg: Config, p: TP.Policy, s: RunState, st: State, e: Event)
    requires e.Response? && e.message.role == Assistant && e.message.HasToolCalls()
    requires Inv(cfg, st) && st.rollbacks <= Spendable(cfg) && Awaiting(st.stage) && CallsPending(st, e.message, s.rt)
    requires s.finished.None? && Inv(cfg, s.rt) && s.trace == ToDicts(s.rt.log)
    ensures TurnOk(cfg, st, ToolPhase(cfg, p, s, e.message.toolCalls.value, e.world), EmptyId(e.message.toolCalls))
    ensures ToolPhase(cfg, p, s, e.message.toolCalls.value, e.world).finished.None? <==> !EmptyId(e.message.toolCalls)
  {
    hide ApplyToolResults, TP.ExecuteRound, TP.Exhausted, Inv, WentOn, ToDicts;
    assert TurnsWithin(cfg, s.rt) && s.rt.pending == e.message.toolCalls.value by { InvTurns(cfg, s.rt); }
    var calls := e.message.toolCalls.value;
    var (tools, outcomes) := TP.ExecuteRound(p, s.tools, TP.RequestsFor(p, calls), e.world);
    var results, exhausted, rejected := TP.MessagesOf(outcomes), TP.Exhausted(p, tools), TP.RejectedIds(outcomes);
    TP.BatchFits(p, s.tools, calls, e.world);
    ResultsAreToolMessages(p, s.tools, calls, e.world);
    if Answers(results, calls) {
      BatchGoesOn(cfg, s.(tools := tools), st, e, results, exhausted, rejected);
    } else {
      WrongAnswersRaise(cfg, s.rt, results, exhausted, rejected);
    }
  }

  lemma InvTurns(cfg: Config, st: State)
    requires Inv(cfg, st)
    ensures TurnsWithin(cfg, st)
  {
  }

  lemma ResultsAreToolMessages(p: TP.Policy, tools: TP.ToolState, calls: seq<ToolCall>, world: nat -> TP.Behaviour)
    ensures AllTool(TP.MessagesOf(TP.ExecuteRound(p, tools, TP.RequestsFor(p, calls), world).1))
  {
    hide TP.RunRequests;
    TP.OneOutcomePerRequest(p, tools, TP.RequestsFor(p, calls), world);
  }

  lemma BatchGoesOn(cfg: Config, s: RunState, st: State, e: Event, results: seq<Message>,
                    exhausted: bool, rejected: set<string>)
    requires e.Response? && e.message.role == Assistant && e.message.HasToolCalls()
    requires Inv(cfg, st) && st.rollbacks <= Spendable(cfg) && Awaiting(st.stage) && CallsPending(st, e.message, s.rt)
    requires s.finished.None? && Inv(cfg, s.rt) && s.trace == ToDicts(s.rt.log)
    requires Answers(results, e.message.toolCalls.value) && AllTool(results)
    ensures
      var w := ApplyToolResults(cfg, s.rt, results, exhausted, rejected);
      && Result(w, false).Ok?
      && var s1 := Took(s, w.st, Result(w, false).value);
         WentOn(cfg, st, s1) && Kept(cfg, s1) && TurnsWithin(cfg, s1.rt) && s1.finished.None?
  {
    hide ApplyToolResults, Inv, Resolve, ToolWork, Potential, ResultsEffect, ResultsArrived, Result, ToDicts, Tracks;
    var called := s.rt;
    assert called.pending == e.message.toolCalls.value && called.stage == ToolCallsAwaitTool;
    ResolvedBatch(cfg, called.pending, results, rejected);
    ToolResultsStep(cfg, called, results, exhausted, rejected);
    var w := ApplyToolResults(cfg, called, results, exhausted, rejected);
    var all := Resolve(cfg, called.pending, results, rejected).value;
    ResultsAction(cfg, called, all, ToolWork(called, all), w.st);
    TookKeeps(cfg, s, w, false);
    InvTurns(cfg, w.st);
    if cfg.maxTurns.Some? {
      ResultsDrop(cfg, st, e.message, called, all, ToolWork(called, all), w.st);
    }
  }

  // ---------- One turn ----------

  /** A finished answer reports a specific reason. */
  lemma FinishedSpecific(cfg: Config, w: Work)
    requires Inv(cfg, w.st) && w.error.None? && ActionOf(w.st.stage) == Some(Finish)
    ensures
      var step := Result(w, false);
      step.Ok? && step.value.action == Finish && Specific(DoneReason(step.value.stage, step.value.trigger))
      && !DoneReason(step.value.stage, step.value.trigger).Crashed?
  {
    hide Replay;
  }

  lemma AnswerSpends(cfg: Config, st: State, m: Message, r: State)
    requires st.rollbacks <= Spendable(cfg)
    requires AnswerUndone(cfg, st, m, r) || AnswerStands(cfg, st, m, r)
    ensures r.rollbacks <= Spendable(cfg)
  {
  }

  lemma AnswerDrops(cfg: Config, st: State, m: Message, r: State)
    requires Inv(cfg, st) && st.rollbacks <= Spendable(cfg) && Awaiting(st.stage) && cfg.maxTurns.Some?
    requires AnswerUndone(cfg, st, m, r) || AnswerStands(cfg, st, m, r)
    ensures Potential(cfg, r) < Potential(cfg, st)
  {
    hide Exchanges, Spendable;
    if AnswerUndone(cfg, st, m, r) {
      assert Awaiting(r.stage);
    } else if Awaiting(r.stage) {
      TurnDrops(cfg, st, r);
    } else {
      PotentialNonNegative(cfg, st);
    }
  }

  /** The answer was accepted as a step that does not end the run. */
  lemma AcceptedTurn(cfg: Config, p: TP.Policy, s: RunState, st: State, e: Event, w: Work)
    requires Running(cfg, s) && e.Response? && e.message.role == Assistant
    requires Inv(cfg, st) && st == s.rt.(view := st.view) && st.view.visible == s.rt.view.visible
    requires ActionOf(st.stage) == Some(CallModel)
    requires w == ApplyAssistant(cfg, st, e.message, e.cutShort) && w.error.None? && Inv(cfg, w.st)
    requires AnswerEffect(cfg, st, e.message, w.st) && ActionOf(w.st.stage) != Some(Finish)
    ensures
      var step := Result(w, false);
      && step.Ok?
      && var s1 := Took(s, w.st, step.value);
         (step.value.action == ExecuteTools <==> w.st.stage == ToolCallsAwaitTool)
         && (step.value.action == ExecuteTools ==>
               && e.message.HasToolCalls()
               && TurnOk(cfg, st, ToolPhase(cfg, p, s1, e.message.toolCalls.value, e.world),
                         EmptyId(e.message.toolCalls)))
         && (step.value.action == CallModel ==> TurnOk(cfg, st, s1, false))
         && step.value.action != Finish
  {
    hide ApplyAssistant, ToolPhase, Potential, Exchanges, Replay, ToDicts, Spendable, Hides;
    TookKeeps(cfg, s, w, false);
    var s1 := Took(s, w.st, Result(w, false).value);
    if CallsPending(st, e.message, w.st) {
      ToolPhaseOk(cfg, p, s1, st, e);
    } else {
      AnswerSpends(cfg, st, e.message, w.st);
      if cfg.maxTurns.Some? {
        AnswerDrops(cfg, st, e.message, w.st);
      }
    }
  }

  lemma SamePotential(cfg: Config, a: State, b: State)
    requires cfg.maxTurns.Some? && a == b.(view := a.view) && a.view.visible == b.view.visible
    ensures Potential(cfg, a) == Potential(cfg, b)
  {
  }

  lemma AnswerTurnOk(cfg: Config, p: TP.Policy, s: RunState, e: Event)
    requires Running(cfg, s) && e.Response?
    ensures TurnOk(cfg, s.rt, AnswerTurn(cfg, p, s, e), Crashes(cfg, s, e))
  {
    hide Observe, Potential, Inv, ToolPhase, AnswerEffect, AnsweredTurn, AnswerCrashes, ToDicts;
    assert Inv(cfg, s.rt);
    var st := Observe(cfg, s.rt, s.prompt, e.inputTokens);
    ObserveKeeps(cfg, s.rt, s.prompt, e.inputTokens);
    if cfg.maxTurns.Some? {
      SamePotential(cfg, st, s.rt);
    }
    AnsweredTurnOk(cfg, p, s, st, e);
  }

  lemma RefusedTurn(cfg: Config, p: TP.Policy, s: RunState, st: State, e: Event)
    requires Running(cfg, s) && e.Response? && Inv(cfg, st)
    requires ActionOf(st.stage) != Some(CallModel) || e.message.role != Assistant
    ensures TurnOk(cfg, st, AnsweredTurn(cfg, p, s, st, e), true)
  {
    hide Receive, Dispatch, ToolPhase, WentOn, Replay, ToDicts;
  }

  lemma AnsweredTurnOk(cfg: Config, p: TP.Policy, s: RunState, st: State, e: Event)
    requires Running(cfg, s) && e.Response?
    requires Inv(cfg, st) && st == s.rt.(view := st.view) && st.view.visible == s.rt.view.visible
    ensures TurnOk(cfg, st, AnsweredTurn(cfg, p, s, st, e), AnswerCrashes(cfg, st, e))
  {
    if ActionOf(st.stage) != Some(CallModel) || e.message.role != Assistant {
      RefusedTurn(cfg, p, s, st, e);
    } else {
      TakenTurnOk(cfg, p, s, st, e);
    }
  }

  lemma TakenTurnOk(cfg: Config, p: TP.Policy, s: RunState, st: State, e: Event)
    requires Running(cfg, s) && e.Response? && e.message.role == Assistant && ActionOf(st.stage) == Some(CallModel)
    requires Inv(cfg, st) && st == s.rt.(view := st.view) && st.view.visible == s.rt.view.visible
    ensures TurnOk(cfg, st, AnsweredTurn(cfg, p, s, st, e), AnswerCrashes(cfg, st, e))
  {
    hide ApplyAssistant, AnswerRaises, CallsAccepted, Potential, ToolPhase, AnswerEffect, WentOn, DoneReason, Replay,
      ToDicts;
    AssistantStep(cfg, st, e.message, e.cutShort);
    AnswerRaisesExactly(cfg, st, e.message, e.cutShort);
    CallsAcceptedExactly(cfg, st, e.message, e.cutShort);
    var w := ApplyAssistant(cfg, st, e.message, e.cutShort);
    if w.error.Some? {
      AnswerEither(cfg, st, e.message, e.cutShort);
    } else if ActionOf(w.st.stage) == Some(Finish) {
      FinishedSpecific(cfg, w);
      TookKeeps(cfg, s, w, false);
    } else {
      AcceptedTurn(cfg, p, s, st, e, w);
    }
  }

  lemma AnswerEither(cfg: Config, st: State, m: Message, cutShort: bool)
    requires AnswerRaises(cfg, st, m, cutShort)
    ensures !CallsAccepted(cfg, st, m, cutShort)
  {
    hide GenerationCheck;
  }

  lemma RecoveredTurn(cfg: Config, s: RunState, w: Work)
    requires Running(cfg, s) && w.base == s.rt && Tracks(w) && w.error.None? && Inv(cfg, w.st)
    requires w.st.rollbacks == s.rt.rollbacks
    requires w.st.stage == ForceFinalAwaitAssistant || w.st.stage == TokenExceeded
    requires Exchanges(w.st.view.visible) <= Exchanges(s.rt.view.visible)
    requires Awaiting(s.rt.stage) || Exchanges(w.st.view.visible) < Exchanges(s.rt.view.visible)
    ensures
      forall reason :: Specific(reason) && !reason.Crashed? ==> TurnOk(cfg, s.rt, Continue(s, w, false, reason), false)
  {
    hide Exchanges, Replay, ToDicts, Tracks, Spendable;
    TookKeeps(cfg, s, w, false);
    if cfg.maxTurns.Some? {
      PotentialNonNegative(cfg, s.rt);
    }
  }

  lemma ContextTurnOk(cfg: Config, p: TP.Policy, s: RunState)
    requires Running(cfg, s)
    ensures TurnOk(cfg, s.rt, Turn(cfg, p, s, ContextLimitError), Crashes(cfg, s, ContextLimitError))
  {
    hide Potential, Replay, ToDicts, Exchanges, RecoverFromContextError, RecoveryRaises, WentOn;
    var w := RecoverFromContextError(cfg, s.rt);
    if s.rt.stage == TokenExceeded {
      DeadEndRaises(cfg, s.rt);
    } else {
      ContextErrorStep(cfg, s.rt);
      if w.error.None? && s.rt.stage != ForceFinalAwaitAssistant {
        EndedExchanges(cfg, s.rt, w.st);
        RecoveredTurn(cfg, s, w);
      } else if w.error.None? {
        TookKeeps(cfg, s, w, true);
      }
    }
  }

  /** From a stage without successors every recovery raises. */
  lemma DeadEndRaises(cfg: Config, st: State)
    requires st.log != [] && st.stage == TokenExceeded
    ensures RecoverFromContextError(cfg, st).error.Some? && RecoverFromContextError(cfg, st).st.turns == st.turns
  {
    hide ViewReplay;
    assert HiddenForContext(st, true) == 0;
  }

  lemma DeadEndRefuses(cfg: Config, st: State)
    requires st.log != [] && st.stage == TokenExceeded
    ensures
      var w := RollBackLatestExchange(cfg, st, ReasonText(EmptyResponse), EmptyResponse);
      w.Some? && w.value.error.Some? && w.value.st == st
  {
    hide LatestExchange, Append, Inject;
  }

  lemma EmptyTurnOk(cfg: Config, p: TP.Policy, s: RunState)
    requires Running(cfg, s)
    ensures TurnOk(cfg, s.rt, Turn(cfg, p, s, EmptyResponseError), Crashes(cfg, s, EmptyResponseError))
  {
    hide Potential, Replay, ToDicts, Exchanges, LatestExchange, RollBackLatestExchange, WentOn;
    if s.rt.stage == TokenExceeded {
      DeadEndRefuses(cfg, s.rt);
    } else {
      EmptyResponseStep(cfg, s.rt, ReasonText(EmptyResponse), EmptyResponse);
      var w := RollBackLatestExchange(cfg, s.rt, ReasonText(EmptyResponse), EmptyResponse);
      if w.Some? {
        RecoveredTurn(cfg, s, w.value);
      }
    }
  }

  /** One turn of a running run either goes on, with a lower potential, or ends it for a specific reason; it ends in
      an exception exactly on the events of `Crashes`, and otherwise keeps the invariant, the prompt and the trace,
      finished or not. */
  lemma TurnKeeps(cfg: Config, p: TP.Policy, s: RunState, e: Event)
    requires Running(cfg, s)
    ensures TurnOk(cfg, s.rt, Turn(cfg, p, s, e), Crashes(cfg, s, e))
  {
    hide AnswerTurn, TurnOk, Crashes;
    match e
    case Response(_, _, _, _) => AnswerTurnOk(cfg, p, s, e);
    case ContextLimitError => ContextTurnOk(cfg, p, s);
    case EmptyResponseError => EmptyTurnOk(cfg, p, s);
    case OtherModelError => OtherTurnOk(cfg, p, s);
  }

  /** The loop does not notice that a tool phase ended at the terminal stage: whatever the model does next, short
      of an error that ends the run anyway, raises. */
  lemma DeadEndCrashes(cfg: Config, p: TP.Policy, s: RunState, e: Event)
    requires Running(cfg, s) && s.rt.stage == TokenExceeded && e != OtherModelError
    ensures HasCrashed(Turn(cfg, p, s, e))
  {
    hide Turn, Running, Observe;
    TurnKeeps(cfg, p, s, e);
    if e.Response? {
      ObserveStage(cfg, s.rt, s.prompt, e.inputTokens);
    }
  }

  lemma OtherTurnOk(cfg: Config, p: TP.Policy, s: RunState)
    requires Running(cfg, s)
    ensures TurnOk(cfg, s.rt, Turn(cfg, p, s, OtherModelError), Crashes(cfg, s, OtherModelError))
  {
    hide Replay, ToDicts, WentOn;
  }

  // ---------- Whole runs ----------

  lemma NonNegativeProduct(a: nat, b: nat)
    ensures a * b >= 0
  {
  }

  lemma StartRuns(cfg: Config, tools: TP.ToolState, task: Text)
    requires cfg.Ok()
    ensures
      var s := Started(cfg, tools, task);
      && Running(cfg, s)
      && (cfg.maxTurns.Some? ==> Potential(cfg, s.rt) <= LoopBound(cfg))
  {
    hide Initialize, Tracks, Exchanges, ToDicts, Spendable, Replay;
    InitializeStep(cfg, task);
    var w := Initialize(cfg, FRESH, task);
    TracksLog(w);
    assert FRESH.log + w.appended == w.appended;
    if cfg.maxTurns.Some? {
      assert cfg.maxTurns.value >= 1;
      NonNegativeProduct(Weight(cfg), cfg.maxTurns.value - 1);
    }
  }

  /** A run after any number of turns: unfinished, it has used up some of the potential; finished, it has a specific
      reason; and unless it has crashed, it keeps the invariant, the prompt and the trace. */
  ghost predicate RunOk(cfg: Config, start: State, s: RunState, n: nat) {
    && (s.finished.None? ==>
         Running(cfg, s) && (cfg.maxTurns.Some? ==> Potential(cfg, s.rt) + n <= Potential(cfg, start)))
    && (s.finished.Some? ==> Specific(s.finished.value))
    && (!HasCrashed(s) ==> Kept(cfg, s))
    && TurnsWithin(cfg, s.rt)
  }

  lemma {:induction false} RunKeeps(cfg: Config, p: TP.Policy, s: RunState, events: nat -> Event, n: nat)
    requires Running(cfg, s)
    ensures RunOk(cfg, s.rt, After(cfg, p, s, events, n), n)
    ensures Safe(cfg) && (forall i :: WellFormed(events(i))) ==> !HasCrashed(After(cfg, p, s, events, n))
    decreases n
  {
    hide Turn, Potential, Safe, WellFormed, Inv, ToDicts, Crashes, Spendable;
    if n == 0 {
      assert TurnsWithin(cfg, s.rt) by { InvTurns(cfg, s.rt); }
    } else {
      RunKeeps(cfg, p, s, events, n - 1);
      var before := After(cfg, p, s, events, n - 1);
      if before.finished.None? {
        TurnKeeps(cfg, p, before, events(n - 1));
        if Safe(cfg) && WellFormed(events(n - 1)) {
          SafeNeverCrashes(cfg, before, events(n - 1));
        }
      }
    }
  }

  /** Every run with a turn limit ends by itself: after `LoopBound` unfinished turns the next one finishes it,
      whatever the model, its errors and the tools do. */
  lemma {:induction false} EveryRunEnds(cfg: Config, p: TP.Policy, tools: TP.ToolState, task: Text,
                                        events: nat -> Event, n: nat)
    requires cfg.Ok() && cfg.maxTurns.Some? && n > LoopBound(cfg)
    ensures
      var r := After(cfg, p, Started(cfg, tools, task), events, n);
      && r.finished.Some? && Specific(r.finished.value)
      && (Safe(cfg) && (forall i :: WellFormed(events(i))) ==> !HasCrashed(r))
  {
    hide Turn, Started, Inv;
    StartRuns(cfg, tools, task);
    var s := Started(cfg, tools, task);
    RunKeeps(cfg, p, s, events, n);
    var r := After(cfg, p, s, events, n);
    if r.finished.None? {
      PotentialNonNegative(cfg, r.rt);
    }
  }

  // ---------- The persisted trace ----------

  /** At every point of every run, finished or not, unless an exception has left the loop: the prompt is what the
      runtime shows, the persisted trace is the whole log, and loading the trace and replaying it gives that very
      prompt, up to empty tool-call lists. */
  lemma {:induction false} TraceIsFaithful(cfg: Config, p: TP.Policy, tools: TP.ToolState, task: Text,
                                           events: nat -> Event, n: nat)
    requires cfg.Ok()
    ensures
      var r := After(cfg, p, Started(cfg, tools, task), events, n);
      !HasCrashed(r) ==>
        && r.prompt == r.rt.view.visible == Replay([], r.rt.log)
        && r.trace == ToDicts(r.rt.log)
        && Reloads(r.trace, r.prompt)
  {
    hide Turn, Started, Replay, ToDicts, FromDicts, Reloads;
    StartRuns(cfg, tools, task);
    RunKeeps(cfg, p, Started(cfg, tools, task), events, n);
    KeptReloads(cfg, After(cfg, p, Started(cfg, tools, task), events, n));
  }

  /** A trace can be loaded, and replaying it gives `prompt`, up to empty tool-call lists. */
  predicate Reloads(trace: seq<Dict>, prompt: seq<Message>) {
    var loaded := FromDicts(trace, true);
    loaded.Some? && Replay([], loaded.value) == NormalAll(prompt)
  }

  lemma KeptReloads(cfg: Config, s: RunState)
    ensures Kept(cfg, s) ==> s.prompt == Replay([], s.rt.log) && Reloads(s.trace, s.prompt)
  {
    hide Replay, ToDicts, FromDicts;
    TraceReplays(s.rt.log);
  }

  /** At every point of every run turns stay within the limit; and unless an exception has left the loop, a stage
      that still waits for a free answer comes before the last permitted turn. */
  lemma {:induction false} TurnsStayBounded(cfg: Config, p: TP.Policy, tools: TP.ToolState, task: Text,
                                            events: nat -> Event, n: nat)
    requires cfg.Ok() && cfg.maxTurns.Some?
    ensures
      var r := After(cfg, p, Started(cfg, tools, task), events, n);
      && r.rt.turns <= cfg.maxTurns.value
      && (!HasCrashed(r) ==>
           && (r.rt.stage == ForceFinalAwaitAssistant ==> r.rt.turns < cfg.maxTurns.value)
           && (Awaiting(r.rt.stage) ==> r.rt.turns + 1 < cfg.maxTurns.value))
  {
    hide Turn, Started, Replay, ToDicts;
    StartRuns(cfg, tools, task);
    RunKeeps(cfg, p, Started(cfg, tools, task), events, n);
  }

  // ---------- The tools over a run ----------

  /** Exhausted tools force the end at once. */
  lemma ExhaustionForces(cfg: Config, st: State, results: seq<Message>, rejected: set<string>)
    requires ApplyToolResults(cfg, st, results, true, rejected).error.None?
    ensures ApplyToolResults(cfg, st, results, true, rejected).st.stage == ForceFinalAwaitAssistant
  {
    hide ToolWork, Resolve, Append;
  }

  lemma ToolPhaseTools(cfg: Config, p: TP.Policy, s: RunState, calls: seq<ToolCall>, world: nat -> TP.Behaviour)
    requires TP.Accounted(p, s.tools)
    ensures
      var r := ToolPhase(cfg, p, s, calls, world);
      && TP.Accounted(p, r.tools)
      && (!HasCrashed(r) && Awaiting(r.rt.stage) ==> !TP.Exhausted(p, r.tools))
  {
    hide ApplyToolResults, TP.ExecuteRound, TP.Exhausted, TP.Accounted, ToDicts;
    var requests := TP.RequestsFor(p, calls);
    TP.RoundAccounted(p, s.tools, requests, world);
    var (tools, outcomes) := TP.ExecuteRound(p, s.tools, requests, world);
    var results, rejected := TP.MessagesOf(outcomes), TP.RejectedIds(outcomes);
    if TP.Exhausted(p, tools) && ApplyToolResults(cfg, s.rt, results, true, rejected).error.None? {
      ExhaustionForces(cfg, s.rt, results, rejected);
    }
  }

  /** What a turn can do to the tools: a state that waits for a free answer afterwards has tools left, or waited for
      one before with the same tools. */
  ghost predicate ToolsOk(p: TP.Policy, before: RunState, r: RunState) {
    && TP.Accounted(p, r.tools)
    && (!HasCrashed(r) && Awaiting(r.rt.stage) ==>
          !TP.Exhausted(p, r.tools) || (Awaiting(before.rt.stage) && r.tools == before.tools))
  }

  lemma AnsweredTools(cfg: Config, p: TP.Policy, s: RunState, st: State, e: Event)
    requires e.Response? && Inv(cfg, st) && st.stage == s.rt.stage && TP.Accounted(p, s.tools)
    ensures ToolsOk(p, s, AnsweredTurn(cfg, p, s, st, e))
  {
    hide ApplyAssistant, ToolPhase, Inv, TP.Accounted, TP.Exhausted, AnswerUndone, AnswerStands, ToDicts, DoneReason;
    var w := ApplyAssistant(cfg, st, e.message, e.cutShort);
    if Result(w, false).Ok? {
      var s1 := Took(s, w.st, Result(w, false).value);
      if Result(w, false).value.action == ExecuteTools {
        ToolPhaseTools(cfg, p, s1, if e.message.HasToolCalls() then e.message.toolCalls.value else [], e.world);
      } else {
        AnswerNeedsModel(cfg, st, e.message, e.cutShort);
        AssistantStep(cfg, st, e.message, e.cutShort);
      }
    }
  }

  lemma AnswerNeedsModel(cfg: Config, st: State, m: Message, cutShort: bool)
    requires ApplyAssistant(cfg, st, m, cutShort).error.None?
    ensures ActionOf(st.stage) == Some(CallModel) && m.role == Assistant
  {
    hide Dispatch, Receive;
  }

  lemma TurnTools(cfg: Config, p: TP.Policy, s: RunState, e: Event)
    requires Running(cfg, s) && TP.Accounted(p, s.tools)
    ensures ToolsOk(p, s, Turn(cfg, p, s, e))
  {
    hide AnsweredTurn, RecoverFromContextError, RollBackLatestExchange, LatestExchange, Observe, Inv, Kept,
      TP.Accounted, TP.Exhausted, ToDicts, Replay, Exchanges, Spendable;
    assert Inv(cfg, s.rt) by { InvOf(cfg, s); }
    match e
    case Response(_, _, tokens, _) =>
      ObserveKeeps(cfg, s.rt, s.prompt, tokens);
      AnsweredTools(cfg, p, s, Observe(cfg, s.rt, s.prompt, tokens), e);
    case ContextLimitError => RecoveryKeepsWaiting(cfg, s.rt);
    case EmptyResponseError =>
      if s.rt.stage == TokenExceeded {
        InvLog(cfg, s.rt);
        DeadEndRefuses(cfg, s.rt);
      } else {
        EmptyResponseStep(cfg, s.rt, ReasonText(EmptyResponse), EmptyResponse);
      }
    case OtherModelError =>
  }

  lemma InvOf(cfg: Config, s: RunState)
    requires Kept(cfg, s)
    ensures Inv(cfg, s.rt)
  {
  }

  lemma InvLog(cfg: Config, st: State)
    requires Inv(cfg, st)
    ensures st.log != []
  {
  }

  lemma RecoveryKeepsWaiting(cfg: Config, st: State)
    requires Inv(cfg, st) && (ActionOf(st.stage) == Some(CallModel) || st.stage == TokenExceeded)
    ensures
      var w := RecoverFromContextError(cfg, st);
      w.error.None? && Awaiting(w.st.stage) ==> Awaiting(st.stage)
  {
    hide RecoverFromContextError, Replay;
    if st.stage == TokenExceeded {
      DeadEndRaises(cfg, st);
    } else {
      ContextErrorStep(cfg, st);
    }
  }

  lemma {:induction false} RunTools(cfg: Config, p: TP.Policy, s: RunState, events: nat -> Event, n: nat)
    requires Running(cfg, s) && TP.Accounted(p, s.tools)
    ensures
      var r := After(cfg, p, s, events, n);
      && TP.Accounted(p, r.tools)
      && (!HasCrashed(r) && Awaiting(r.rt.stage) ==> r.tools == s.tools || !TP.Exhausted(p, r.tools))
    decreases n
  {
    hide Turn, Running, TP.Accounted, TP.Exhausted;
    if n > 0 {
      RunTools(cfg, p, s, events, n - 1);
      var before := After(cfg, p, s, events, n - 1);
      if before.finished.None? {
        RunKeeps(cfg, p, s, events, n - 1);
        TurnTools(cfg, p, before, events(n - 1));
      }
    }
  }

  /** At every point of every run the books of the tool manager balance and no budget is overdrawn; and, unless an
      exception has left the loop, a stage that waits for a free answer means that the tools are not exhausted, or
      are as untouched as when the task began. */
  lemma ToolsStayAccounted(cfg: Config, p: TP.Policy, tools: TP.ToolState, task: Text, events: nat -> Event, n: nat)
    requires cfg.Ok()
    ensures
      var r := After(cfg, p, Started(cfg, tools, task), events, n);
      && TP.Accounted(p, r.tools)
      && (!HasCrashed(r) && Awaiting(r.rt.stage) ==> r.tools == TP.TaskStart(tools) || !TP.Exhausted(p, r.tools))
  {
    hide Turn, TP.Accounted, TP.Exhausted, Initialize, Running;
    StartRuns(cfg, tools, task);
    TP.StartAccounted(p, tools);
    RunTools(cfg, p, Started(cfg, tools, task), events, n);
  }
}
