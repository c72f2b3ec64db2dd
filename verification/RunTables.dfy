/** What each model event amounts to for a run, by the tables of the runtime, and why a run ends. */
module RunTables {
  import opened Messages
  import opened Visibility
  import opened TrackedView
  import opened Stages
  import opened ContextBudget
  import opened ToolAnswers
  import opened RuntimeSpec
  import opened RuntimeLaws
  import opened RuntimeSteps
  import opened RuntimeTables
  import opened Orchestration
  import TP = ToolPolicy

  /** Why the run ends at this stage, if it does: an accepted answer, a forced one for the recorded trigger, rejected
      tool calls, or spent tokens. */
  function Ending(last: Stage, trigger: Option<Trigger>): Option<Reason> {
    match last
    case Completed => Some(FinalAnswer)
    case ToolCallsRejected => Some(CallsRejected)
    case TokenExceeded => Some(EndedByTokens)
    case ForceCompleted =>
      Some(match trigger
           case None => ForcedCompletion
           case Some(ContextLimit) => EndedByContextLimit
           case Some(TurnLimit) => EndedByTurnLimit
           case Some(ToolsExhausted) => EndedByToolsExhausted
           case Some(EmptyResponse) => EndedByEmptyResponse)
    case _ => None
  }

  function Last(r: Row): Stage
    requires r.path != []
  {
    r.path[|r.path| - 1]
  }

  /** The run took one more step of the runtime, and nothing else. */
  ghost predicate Stepped(s: RunState, r: RunState, row: Row, finished: Option<Reason>) {
    && r.prompt == row.shown && r.trace == s.trace + ToDicts(row.appended)
    && r.tools == s.tools && r.finished == finished
  }

  lemma StepTaken(s: RunState, w: Work, row: Row, flag: bool)
    requires Does(w, row) && ActionOf(w.st.stage).Some? && s.finished.None?
    ensures Result(w, flag).Ok? && Stepped(s, Took(s, w.st, Result(w, flag).value), row, None)
    ensures Result(w, flag).value.action == ActionOf(Last(row)).value && Result(w, flag).value.stage == Last(row)
  {
    hide ToDicts;
  }

  /** A run starts from the opened conversation, with a trace of exactly that and with the tools of a new task. */
  lemma StartTable(cfg: Config, tools: TP.ToolState, task: Text)
    ensures
      var s, row := Started(cfg, tools, task), OpeningRow(cfg, task);
      && s.prompt == row.shown && s.trace == ToDicts(row.appended) && s.rt.log == row.appended
      && TP.NewTask(s.tools) && s.finished == None
  {
    hide Initialize, ToDicts, OpeningRow;
    OpeningTable(cfg, task);
    assert FRESH.log == [] && [] + OpeningRow(cfg, task).appended == OpeningRow(cfg, task).appended;
  }

  /** An answer that is not tool calls to run: the run shows and persists what the table says, and ends as it says. */
  lemma AnswerTurnTable(cfg: Config, p: TP.Policy, s: RunState, e: Event)
    requires cfg.Ok() && Running(cfg, s) && ActionOf(s.rt.stage) == Some(CallModel)
    requires e.Response? && e.message.role == Assistant
    ensures
      var row := AnswerRow(cfg, Observe(cfg, s.rt, s.prompt, e.inputTokens), e.message, e.cutShort);
      var r := Turn(cfg, p, s, e);
      if row.None? then r.finished == Some(Crashed(EmptyFinalPrompt))
      else row.value.path != [] && (Last(row.value) != ToolCallsAwaitTool ==>
             Stepped(s, r, row.value, Ending(Last(row.value), row.value.trigger)))
  {
    hide ApplyAssistant, AnswerRow, Does, Observe, Inv, ToolPhase, ToDicts, Tracks, Spendable, Took, Exchanges;
    var st := Observe(cfg, s.rt, s.prompt, e.inputTokens);
    assert Inv(cfg, s.rt);
    ObserveKeeps(cfg, s.rt, s.prompt, e.inputTokens);
    AnswerTable(cfg, st, e.message, e.cutShort);
    var row := AnswerRow(cfg, st, e.message, e.cutShort);
    if row.Some? {
      AnswerReported(cfg, s, st, e.message, e.cutShort, row.value);
    }
  }

  lemma AnswerReported(cfg: Config, s: RunState, st: State, m: Message, cutShort: bool, row: Row)
    requires Inv(cfg, st) && ActionOf(st.stage) == Some(CallModel) && m.role == Assistant && s.finished.None?
    requires Does(ApplyAssistant(cfg, st, m, cutShort), row)
    ensures
      var w := ApplyAssistant(cfg, st, m, cutShort);
      && Result(w, false).Ok?
      && var step := Result(w, false).value;
         && row.path != [] && ActionOf(Last(row)) == Some(step.action) && step.stage == Last(row)
         && Stepped(s, Took(s, w.st, step), row, None)
         && (step.action == Finish ==> Some(DoneReason(step.stage, step.trigger)) == Ending(Last(row), row.trigger))
         && (step.action == CallModel ==> Ending(Last(row), row.trigger) == None)
  {
    hide ApplyAssistant, Inv, Took, AnswerEffect, Stepped;
    var w := ApplyAssistant(cfg, st, m, cutShort);
    AssistantStep(cfg, st, m, cutShort);
    assert ActionOf(w.st.stage).Some? by { InvReports(cfg, w, false); }
    StepTaken(s, w, row, false);
  }

  /** Tool calls to run: they are executed as one round; the results, merged by the ids of the rejected requests, are
      applied, with the tools reported exhausted if they are; and the run goes on, whatever comes of it. */
  lemma ToolTurnTable(cfg: Config, p: TP.Policy, s: RunState, e: Event, row: Row)
    requires cfg.Ok() && Running(cfg, s) && ActionOf(s.rt.stage) == Some(CallModel)
    requires e.Response? && e.message.role == Assistant && !EmptyId(e.message.toolCalls)
    requires AnswerRow(cfg, Observe(cfg, s.rt, s.prompt, e.inputTokens), e.message, e.cutShort) == Some(row)
    requires row.path != [] && Last(row) == ToolCallsAwaitTool
    ensures
      var st := Observe(cfg, s.rt, s.prompt, e.inputTokens);
      var called := ApplyAssistant(cfg, st, e.message, e.cutShort).st;
      var calls := called.pending;
      var (tools, outcomes) := TP.ExecuteRound(p, s.tools, TP.RequestsFor(p, calls), e.world);
      var rejected := set i | 0 <= i < |outcomes| && outcomes[i].result.status == TP.Rejected
                          :: outcomes[i].request.callId;
      var merged := Merged(cfg, TP.MessagesOf(outcomes), rejected);
      && e.message.toolCalls == Some(calls) && called.view.visible == row.shown && row.shown != []
      && var applied := ResultsRow(cfg, called, merged, TP.Exhausted(p, tools));
         var r := Turn(cfg, p, s, e);
         && r.prompt == applied.shown && r.tools == tools && r.finished == None
         && r.trace == s.trace + ToDicts(row.appended) + ToDicts(applied.appended)
  {
    hide ApplyAssistant, AnswerRow, Does, Observe, Inv, ToolPhase, ToDicts, Tracks, Spendable, Exchanges, ResultsRow,
      EmptyId, TP.ExecuteRound, TP.Exhausted, Merged;
    var st := Observe(cfg, s.rt, s.prompt, e.inputTokens);
    assert Inv(cfg, s.rt);
    ObserveKeeps(cfg, s.rt, s.prompt, e.inputTokens);
    AnswerTable(cfg, st, e.message, e.cutShort);
    AnswerReported(cfg, s, st, e.message, e.cutShort, row);
    var w := ApplyAssistant(cfg, st, e.message, e.cutShort);
    AssistantStep(cfg, st, e.message, e.cutShort);
    CallsWaiting(cfg, st, e.message, e.cutShort, row);
    PhaseTable(cfg, p, Took(s, w.st, Result(w, false).value), e.message.toolCalls.value, e.world);
  }

  lemma CallsWaiting(cfg: Config, st: State, m: Message, cutShort: bool, row: Row)
    requires Inv(cfg, st) && ActionOf(st.stage) == Some(CallModel) && m.role == Assistant
    requires Does(ApplyAssistant(cfg, st, m, cutShort), row) && Last(row) == ToolCallsAwaitTool
    ensures
      var called := ApplyAssistant(cfg, st, m, cutShort).st;
      && called.stage == ToolCallsAwaitTool && called.view.visible == row.shown
      && m.HasToolCalls() && called.pending == m.toolCalls.value
  {
    hide ApplyAssistant, Inv;
    AssistantStep(cfg, st, m, cutShort);
  }

  lemma PhaseTable(cfg: Config, p: TP.Policy, s: RunState, calls: seq<ToolCall>, world: nat -> TP.Behaviour)
    requires cfg.Ok() && Inv(cfg, s.rt) && s.rt.stage == ToolCallsAwaitTool && s.rt.pending == calls
    requires s.finished.None? && !EmptyId(Some(calls))
    ensures
      var (tools, outcomes) := TP.ExecuteRound(p, s.tools, TP.RequestsFor(p, calls), world);
      var rejected := set i | 0 <= i < |outcomes| && outcomes[i].result.status == TP.Rejected
                          :: outcomes[i].request.callId;
      var merged := Merged(cfg, TP.MessagesOf(outcomes), rejected);
      && s.rt.view.visible != []
      && Stepped(s.(tools := tools), ToolPhase(cfg, p, s, calls, world),
                 ResultsRow(cfg, s.rt, merged, TP.Exhausted(p, tools)), None)
  {
    hide ApplyToolResults, ResultsRow, Does, Inv, ToDicts, TP.ExecuteRound, TP.Exhausted, Merged, Answers, Took,
      Tracks;
    var (tools, outcomes) := TP.ExecuteRound(p, s.tools, TP.RequestsFor(p, calls), world);
    var results, rejected := TP.MessagesOf(outcomes), TP.RejectedIds(outcomes);
    TP.BatchFits(p, s.tools, calls, world);
    CallsInSight(cfg, s.rt);
    ResultsTable(cfg, s.rt, results, TP.Exhausted(p, tools), rejected);
    ToolResultsStep(cfg, s.rt, results, TP.Exhausted(p, tools), rejected);
    var w := ApplyToolResults(cfg, s.rt, results, TP.Exhausted(p, tools), rejected);
    assert ActionOf(w.st.stage).Some? by { InvReports(cfg, w, false); }
    StepTaken(s.(tools := tools), w, ResultsRow(cfg, s.rt, Merged(cfg, results, rejected),
                                               TP.Exhausted(p, tools)), false);
  }

  // ---------- Errors of the model ----------

  /** A prompt refused for its length: at the last round the run ends; before it, the run shows what the table says and
      goes on to the last round, unless the generation minimum ends it. */
  lemma RefusedTurnTable(cfg: Config, p: TP.Policy, s: RunState)
    requires cfg.Ok() && Running(cfg, s) && ActionOf(s.rt.stage) == Some(CallModel)
    ensures
      var row, r := RefusedPromptRow(cfg, s.rt), Turn(cfg, p, s, ContextLimitError);
      if row.None? then r.finished == Some(Crashed(BadTransition))
      else
        && row.value.path != []
        && Stepped(s, r, row.value,
                   if s.rt.stage == ForceFinalAwaitAssistant || Last(row.value) == TokenExceeded
                   then Some(EndedByContextLimit) else None)
  {
    hide RecoverFromContextError, RefusedPromptRow, Inv, ToDicts, Tracks, Spendable, Took, Exchanges;
    assert Inv(cfg, s.rt);
    RefusedPromptTable(cfg, s.rt);
    ContextErrorStep(cfg, s.rt);
    var w, row := RecoverFromContextError(cfg, s.rt), RefusedPromptRow(cfg, s.rt);
    if row.Some? {
      assert ActionOf(w.st.stage).Some? by { InvReports(cfg, w, false); }
      StepTaken(s, w, row.value, s.rt.stage == ForceFinalAwaitAssistant);
    }
  }

  /** Empty responses: the run goes on to the last round if the latest exchange can be taken back, and ends
      otherwise. */
  lemma EmptyTurnTable(cfg: Config, p: TP.Policy, s: RunState)
    requires Running(cfg, s) && ActionOf(s.rt.stage) == Some(CallModel)
    ensures
      var row, r := EmptyResponseRow(cfg, s.rt, "empty_response", EmptyResponse), Turn(cfg, p, s, EmptyResponseError);
      if row.None? then r == s.(finished := Some(EndedByEmptyResponse))
      else row.value.path != [] && Last(row.value) == ForceFinalAwaitAssistant && Stepped(s, r, row.value, None)
  {
    hide RollBackLatestExchange, LatestExchange, EmptyResponseRow, Inv, ToDicts, Tracks, Spendable, Took, Exchanges;
    assert Inv(cfg, s.rt);
    EmptyResponseTable(cfg, s.rt, ReasonText(EmptyResponse), EmptyResponse);
    EmptyResponseStep(cfg, s.rt, ReasonText(EmptyResponse), EmptyResponse);
    var r, row := RollBackLatestExchange(cfg, s.rt, ReasonText(EmptyResponse), EmptyResponse),
      EmptyResponseRow(cfg, s.rt, ReasonText(EmptyResponse), EmptyResponse);
    if r.Some? {
      StepTaken(s, r.value, row.value, false);
    }
  }

  /** Any other error of the model ends the run where it is. */
  lemma OtherTurnTable(cfg: Config, p: TP.Policy, s: RunState)
    ensures Turn(cfg, p, s, OtherModelError) == s.(finished := Some(ModelError))
  {
    hide AnswerTurn;
  }

  // ---------- How a forced ending ends the run ----------

  /** At the last round, with a prompt that forced it: a text answer ends the run for the reason that forced it; tool
      calls end it as rejected, and an empty answer that was cut short as out of tokens. Without such a prompt a text
      answer is the final answer. */
  lemma ForcedRunEnds(cfg: Config, p: TP.Policy, s: RunState, e: Event)
    requires cfg.Ok() && Running(cfg, s) && s.rt.stage == ForceFinalAwaitAssistant
    requires e.Response? && e.message.role == Assistant
    ensures
      var prompted := cfg.earlyStop.Some? || cfg.finalPrompt.Some?;
      var r := Turn(cfg, p, s, e);
      && s.rt.trigger.Some?
      && r.finished == Some(
           if e.message.HasToolCalls() then CallsRejected
           else if e.cutShort && !e.message.HasContent() then EndedByTokens
           else if !prompted then FinalAnswer
           else match s.rt.trigger.value
             case ContextLimit => EndedByContextLimit
             case TurnLimit => EndedByTurnLimit
             case ToolsExhausted => EndedByToolsExhausted
             case EmptyResponse => EndedByEmptyResponse)
      && r.prompt == s.prompt + [e.message] && r.tools == s.tools
  {
    hide Turn, Observe, ToDicts, Spendable, AnswerRow, Replay;
    var st := Observe(cfg, s.rt, s.prompt, e.inputTokens);
    ObserveKeeps(cfg, s.rt, s.prompt, e.inputTokens);
    AnswerTurnTable(cfg, p, s, e);
    LastRow(cfg, st, e.message, e.cutShort);
  }

  lemma LastRow(cfg: Config, st: State, m: Message, cutShort: bool)
    requires st.stage == ForceFinalAwaitAssistant
    ensures
      var row := AnswerRow(cfg, st, m, cutShort);
      && row.Some? && row.value.path != []
      && Last(row.value) == LastStage(m, cutShort, cfg.earlyStop.Some? || cfg.finalPrompt.Some?)
      && row.value.trigger == st.trigger && row.value.shown == st.view.visible + [m]
  {
  }
}
