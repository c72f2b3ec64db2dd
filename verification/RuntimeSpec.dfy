/** The conversation runtime as functions on its state. The class `ConversationRuntime` is proved against
    these; the laws about whole conversations are proved of them. */
module RuntimeSpec {
  import opened Messages
  import opened Markers
  import opened Visibility
  import opened TrackedView
  import opened Stages
  import opened ContextBudget
  import opened ToolAnswers

  datatype Trigger = ContextLimit | TurnLimit | ToolsExhausted | EmptyResponse

  datatype Error =
    | NotAssistantMessage
    | AlreadyInitialized
    | ConversationNotInitialized
    | WrongStage
    | BadTransition
    | BadFirstMessage
    | LateSystemMessage
    | WrongToolResults
    | NotToolMessages
    | EmptyFinalPrompt
    | InternalStage

  datatype State = State(
    stage: Stage,
    log: seq<Message>,
    turns: nat,
    pending: seq<ToolCall>,
    rollbacks: nat,
    trigger: Option<Trigger>,
    hasPrompt: bool,
    view: View)

  const FRESH: State := State(NotInitialized, [], 0, [], 0, None, false, EMPTY)

  /** What one runtime step hands back to the orchestrator. */
  datatype StepResult = StepResult(
    stage: Stage,
    action: Action,
    visible: seq<Message>,
    full: seq<Message>,
    appended: seq<Message>,
    path: seq<Stage>,
    trigger: Option<Trigger>,
    errorDuringForceFinal: bool)

  datatype Outcome<+T> = Ok(value: T) | Raised(error: Error)

  /** A step in progress: where it began, the state so far, the stages passed and messages appended so
      far, and the exception raised, if any. Nothing happens after an exception. */
  datatype Work = Work(base: State, st: State, path: seq<Stage>, appended: seq<Message>, error: Option<Error>)

  /** The bookkeeping every step must keep: the log grows by exactly the appended messages, the view by
      their replay, and the stages passed are transitions of the table. */
  ghost predicate Tracks(w: Work) {
    && PathFrom(w.path, w.base.stage, w.st.stage)
    && w.st.log == w.base.log + w.appended
    && w.st.view == ViewReplay(w.base.view, w.appended)
  }

  function Begin(st: State): (w: Work)
    ensures Tracks(w) && w.base == st
  {
    Work(st, st, [st.stage], [], None)
  }

  function Raise(w: Work, e: Error): Work {
    if w.error.Some? then w else w.(error := Some(e))
  }

  // ---------- The two primitive operations ----------

  /** The exception that appending `ms` to `log` raises, if any. */
  function AppendError(log: seq<Message>, ms: seq<Message>): Option<Error> {
    if ms == [] then None
    else if log == [] && ms[0].role != System && ms[0].role != User then Some(BadFirstMessage)
    else if log != [] && ms[0].role == System then Some(LateSystemMessage)
    else if exists i :: 1 <= i < |ms| && ms[i].role == System then Some(LateSystemMessage)
    else None
  }

  function Append(w: Work, ms: seq<Message>): (r: Work)
    ensures (Tracks(w) ==> Tracks(r)) && r.base == w.base
  {
    if w.error.Some? then w
    else if AppendError(w.st.log, ms).Some? then Raise(w, AppendError(w.st.log, ms).value)
    else
      ViewReplayConcat(w.base.view, w.appended, ms);
      w.(st := w.st.(log := w.st.log + ms, view := ViewReplay(w.st.view, ms)), appended := w.appended + ms)
  }

  function Transit(w: Work, next: Stage): (r: Work)
    ensures (Tracks(w) ==> Tracks(r)) && r.base == w.base
  {
    if w.error.Some? then w
    else if next !in Next(w.st.stage) then Raise(w, BadTransition)
    else
      assert Tracks(w) ==> PathFrom(w.path + [next], w.base.stage, next) by {
        if Tracks(w) { PathSnoc(w.path, w.base.stage, w.st.stage, next); }
      }
      w.(st := w.st.(stage := next), path := w.path + [next])
  }

  // ---------- Forced finalization ----------

  function Inject(cfg: Config, w: Work, trigger: Trigger): (r: Work)
    ensures (Tracks(w) ==> Tracks(r)) && r.base == w.base
  {
    if w.error.Some? then w else
    var w1 := Append(w, cfg.WarningMessages());
    if w1.error.Some? then w1 else
    Transit(w1.(st := w1.st.(trigger := Some(trigger), hasPrompt := cfg.EarlyStopPrompt().Some?)),
            ForceFinalAwaitAssistant)
  }

  /** How many visible messages a context-limit rollback hides: back to the last assistant message,
      or to the system message when there is none. */
  function RollbackSize(v: seq<Message>): (n: nat)
    ensures n <= |v|
  {
    if v == [] || v[|v| - 1].role == System then 0
    else if v[|v| - 1].role == Assistant then 1
    else 1 + RollbackSize(v[..|v| - 1])
  }

  function ReasonText(trigger: Trigger): string {
    match trigger
    case ContextLimit => "context_limit"
    case TurnLimit => "turn_limit"
    case ToolsExhausted => "tools_exhausted"
    case EmptyResponse => "empty_response"
  }

  /** Hide the overflowing exchange if the stage allows it. */
  function RollBackForContext(w: Work, rollback: bool): (r: Work)
    ensures (Tracks(w) ==> Tracks(r)) && r.base == w.base
  {
    if w.error.Some? then w else
    var n := if rollback && ContextLimitRollback in Next(w.st.stage) then RollbackSize(w.st.view.visible) else 0;
    if n == 0 then w
    else Transit(Append(w, [BuildRollback(n, ReasonText(ContextLimit))]), ContextLimitRollback)
  }

  function ForceFinalizeForContext(cfg: Config, w: Work, rollback: bool): (r: Work)
    ensures (Tracks(w) ==> Tracks(r)) && r.base == w.base
  {
    if w.error.Some? then w else
    var w1 := RollBackForContext(w, rollback);
    if w1.error.Some? then w1
    else if cfg.minGeneration > 0 && cfg.preflight && !WarningFits(cfg, w1.st.view) then Transit(w1, TokenExceeded)
    else Inject(cfg, w1, ContextLimit)
  }

  // ---------- Limit enforcement ----------

  /** The context checkpoint; None when the conversation passes it. */
  function ContextCheckpoint(cfg: Config, w: Work): (r: Option<Work>)
    ensures r.Some? ==> (Tracks(w) ==> Tracks(r.value)) && r.value.base == w.base
  {
    if !cfg.preflight || w.st.stage !in CHECKPOINTS then None else
    var b := ForceFinalizationBudget(cfg, w.st.view);
    if b.hardStop then Some(Transit(w, TokenExceeded))
    else if !b.needsWarning && b.warningFits then None
    else Some(ForceFinalizeForContext(cfg, w, true))
  }

  function TurnLimitReached(cfg: Config, st: State): bool {
    cfg.maxTurns.Some? && st.turns + 1 == cfg.maxTurns.value
  }

  function AwaitAssistant(cfg: Config, w: Work, checkContext: bool): (r: Work)
    ensures (Tracks(w) ==> Tracks(r)) && r.base == w.base
  {
    if w.error.Some? then w else
    var checked := if checkContext then ContextCheckpoint(cfg, w) else None;
    if checked.Some? then checked.value
    else if TurnLimitReached(cfg, w.st) then Inject(cfg, w, TurnLimit)
    else w
  }

  /** The generation-minimum check, after an assistant message (`rollback` false) or before the next
      generation; None when it does not apply or passes. */
  function GenerationCheck(cfg: Config, w: Work, stageOk: bool, rollback: bool): (r: Option<Work>)
    ensures r.Some? ==> (Tracks(w) ==> Tracks(r.value)) && r.value.base == w.base
  {
    if !cfg.preflight || cfg.minGeneration == 0 || !stageOk then None else
    var b := GenerationBudget(cfg, w.st.view);
    if b.hardStop then Some(Transit(w, TokenExceeded))
    else if b.needsWarning then Some(ForceFinalizeForContext(cfg, w, rollback))
    else None
  }

  // ---------- Assistant messages ----------

  predicate Refused(cfg: Config, m: Message) {
    !m.HasToolCalls() && m.content.Some? && cfg.refuses(m.content.value)
  }

  predicate Misformatted(cfg: Config, m: Message) {
    !m.HasToolCalls() && m.content.Some? && cfg.misformats(m.content.value)
  }

  predicate MayRollBack(cfg: Config, st: State) {
    st.rollbacks < cfg.maxRollbacks
  }

  function RollbackTarget(prior: Stage): Stage {
    if prior == InitialAwaitAssistant then InitialAwaitAssistant else ToolMessagesAwaitAssistant
  }

  /** Count one rollback and take back the turn. */
  function UndoTurn(st: State): State {
    st.(rollbacks := st.rollbacks + 1, turns := if st.turns > 0 then st.turns - 1 else 0)
  }

  function RollBackAssistant(w: Work, prior: Stage, reason: string): (r: Work)
    ensures (Tracks(w) ==> Tracks(r)) && r.base == w.base
  {
    if w.error.Some? then w else
    var w1 := Append(w.(st := UndoTurn(w.st)), [BuildRollback(1, reason)]);
    Transit(Transit(w1, AssistantRollback), RollbackTarget(prior))
  }

  function HandleForceFinal(w: Work, m: Message): (r: Work)
    ensures (Tracks(w) ==> Tracks(r)) && r.base == w.base
  {
    if m.HasToolCalls() then Transit(w, ToolCallsRejected)
    else Transit(w, if w.st.hasPrompt then ForceCompleted else Completed)
  }

  function HandleToolCalls(w: Work, m: Message): (r: Work)
    requires m.HasToolCalls()
    ensures (Tracks(w) ==> Tracks(r)) && r.base == w.base
  {
    if w.error.Some? then w else
    Transit(w.(st := w.st.(pending := m.toolCalls.value)), ToolCallsAwaitTool)
  }

  /** Append a user prompt and wait for the model's next answer at stage `next`. */
  function Prompt(cfg: Config, w: Work, prompt: Text, next: Stage): (r: Work)
    ensures (Tracks(w) ==> Tracks(r)) && r.base == w.base
  {
    AwaitAssistant(cfg, Transit(Append(w, [UserMessage(prompt)]), next), false)
  }

  function ResetRollbacks(w: Work): (r: Work)
    ensures (Tracks(w) ==> Tracks(r)) && r.base == w.base
  {
    if w.error.Some? then w else w.(st := w.st.(rollbacks := 0))
  }

  /** A text answer that nothing rolled back or re-prompted. */
  function Accept(cfg: Config, w: Work, prior: Stage): (r: Work)
    ensures (Tracks(w) ==> Tracks(r)) && r.base == w.base
  {
    var w1 := ResetRollbacks(w);
    if prior == FinalPromptAwaitAssistant || cfg.finalPrompt.None? then Transit(w1, Completed)
    else if cfg.finalPrompt.value == "" then Raise(w1, EmptyFinalPrompt)
    else Prompt(cfg, w1, Plain(cfg.finalPrompt.value), FinalPromptAwaitAssistant)
  }

  function HandleText(cfg: Config, w: Work, prior: Stage, m: Message): (r: Work)
    ensures (Tracks(w) ==> Tracks(r)) && r.base == w.base
  {
    if prior == FinalPromptAwaitAssistant then Accept(cfg, w, prior)
    else if MayRollBack(cfg, w.st) && Refused(cfg, m) then RollBackAssistant(w, prior, "assistant_refusal")
    else if cfg.strategy == FormatErrorStrategy.Ignore || !Misformatted(cfg, m) then Accept(cfg, w, prior)
    else if cfg.strategy == FormatErrorStrategy.Reprompt then Prompt(cfg, w, cfg.reprompt, FormatErrorAwaitAssistant)
    else if MayRollBack(cfg, w.st) then RollBackAssistant(w, prior, "format_error")
    else Accept(cfg, w, prior)
  }

  function Dispatch(cfg: Config, w: Work, prior: Stage, m: Message, cutShort: bool): (r: Work)
    ensures (Tracks(w) ==> Tracks(r)) && r.base == w.base
  {
    if w.error.Some? then w
    else if cutShort && !m.HasContent() && !m.HasToolCalls() then Transit(w, TokenExceeded)
    else if prior == ForceFinalAwaitAssistant then HandleForceFinal(w, m)
    else if cutShort then Transit(w, TokenExceeded)
    else
      var checked := GenerationCheck(cfg, w, w.st.stage == AssistantReceived, false);
      if checked.Some? then checked.value
      else if m.HasToolCalls() then HandleToolCalls(w, m)
      else HandleText(cfg, w, prior, m)
  }

  /** The assistant's answer enters the log and takes a turn. */
  function Receive(st: State, m: Message): (r: Work)
    ensures Tracks(r) && r.base == st
  {
    var w := Append(Begin(st), [m]);
    if w.error.Some? then w
    else Transit(w.(st := w.st.(turns := w.st.turns + 1)), AssistantReceived)
  }

  /** `cutShort` says that the provider stopped for length. */
  function ApplyAssistant(cfg: Config, st: State, m: Message, cutShort: bool): (r: Work)
    ensures Tracks(r) && r.base == st
  {
    if m.role != Assistant then Raise(Begin(st), NotAssistantMessage)
    else if st.log == [] then Raise(Begin(st), ConversationNotInitialized)
    else if ActionOf(st.stage) != Some(CallModel) then Raise(Begin(st), WrongStage)
    else Dispatch(cfg, Receive(st, m), st.stage, m, cutShort)
  }

  // ---------- Initialization ----------

  /** The conversation with its first messages, before any limit is checked. */
  function Opened(cfg: Config, st: State, prompt: Text): (r: Work)
    ensures Tracks(r) && r.base == st
  {
    var w := Begin(st);
    var w1 := if cfg.systemPrompt.Some? && cfg.systemPrompt.value != ""
              then Transit(Append(w, [SystemMessage(Plain(cfg.systemPrompt.value))]), SystemMessageSet)
              else w;
    Transit(Append(w1, [UserMessage(prompt)]), InitialAwaitAssistant)
  }

  function Initialize(cfg: Config, st: State, prompt: Text): (r: Work)
    ensures Tracks(r) && r.base == st
  {
    if st.log != [] then Raise(Begin(st), AlreadyInitialized)
    else AwaitAssistant(cfg, Opened(cfg, st, prompt), true)
  }

  // ---------- Tool results ----------

  /** The tool messages to append for a batch of results; None when they do not answer the pending calls. */
  function Resolve(cfg: Config, pending: seq<ToolCall>, results: seq<Message>,
                   rejected: set<string>): Option<seq<Message>> {
    if !Answers(results, pending) then None
    else if cfg.aggregateRejected then Some(Aggregate(results, rejected, cfg.joinNames))
    else Some(results)
  }

  predicate AllTool(ms: seq<Message>) {
    forall i :: 0 <= i < |ms| ==> ms[i].role == Tool
  }

  /** The tool messages enter the log; nothing is pending any more. */
  function ToolWork(st: State, all: seq<Message>): (r: Work)
    ensures Tracks(r) && r.base == st
  {
    Transit(Append(Begin(st).(st := st.(pending := [])), all), ToolMessagesAwaitAssistant)
  }

  function ApplyToolResults(cfg: Config, st: State, results: seq<Message>, exhausted: bool,
                            rejected: set<string>): (r: Work)
    ensures Tracks(r) && r.base == st
  {
    var w := Begin(st).(st := st.(pending := []));
    var all := Resolve(cfg, st.pending, results, rejected);
    if all.None? || all.value == [] then Raise(w, WrongToolResults)
    else if !AllTool(all.value) then Raise(w, NotToolMessages)
    else if st.log == [] then Raise(w, ConversationNotInitialized)
    else if st.stage != ToolCallsAwaitTool then Raise(w, WrongStage)
    else
      var w1 := ToolWork(st, all.value);
      if exhausted then Inject(cfg, w1, ToolsExhausted)
      else AfterToolResults(cfg, w1)
  }

  function AfterToolResults(cfg: Config, w: Work): (r: Work)
    ensures (Tracks(w) ==> Tracks(r)) && r.base == w.base
  {
    if w.error.Some? then w else
    var checked := GenerationCheck(cfg, w, w.st.stage in CHECKPOINTS, true);
    if checked.Some? then checked.value else AwaitAssistant(cfg, w, true)
  }

  // ---------- Error recovery ----------

  /** After the provider refused the prompt for its length. */
  function RecoverFromContextError(cfg: Config, st: State): (r: Work)
    ensures Tracks(r) && r.base == st
  {
    if st.log == [] then Raise(Begin(st), ConversationNotInitialized)
    else if st.stage == ForceFinalAwaitAssistant then Begin(st)
    else ForceFinalizeForContext(cfg, Begin(st), true)
  }

  predicate IsToolResult(m: Message) {
    m.role == Tool || (m.role == User && m.toolCallId.Some?)
  }

  function TrailingResults(v: seq<Message>): (n: nat)
    ensures n <= |v|
  {
    if v == [] || !IsToolResult(v[|v| - 1]) then 0 else 1 + TrailingResults(v[..|v| - 1])
  }

  lemma TrailingStep(v: seq<Message>, k: nat)
    requires k <= |v|
    ensures TrailingResults(v[..k]) == if k > 0 && IsToolResult(v[k - 1]) then 1 + TrailingResults(v[..k - 1]) else 0
  {
    assert k > 0 ==> v[..k][..k - 1] == v[..k - 1];
  }

  /** 1 if the conversation ends with the (non-empty) force-final prompt. */
  function TrailingPrompt(cfg: Config, v: seq<Message>): (n: nat)
    ensures n <= |v| && n <= 1
  {
    var p := cfg.EarlyStopPrompt();
    if v != [] && p.Some? && p.value != "" && v[|v| - 1].role == User && v[|v| - 1].content == Some(Plain(p.value))
    then 1 else 0
  }

  /** The size of the latest tool exchange with a trailing force-final prompt; 0 when there is none. */
  function LatestExchange(cfg: Config, v: seq<Message>): (n: nat)
    ensures n <= |v|
  {
    var p := TrailingPrompt(cfg, v);
    var results := TrailingResults(v[..|v| - p]);
    var idx := |v| - p - results - 1;
    if results == 0 || idx < 0 then 0
    else if v[idx].role == Assistant && v[idx].HasToolCalls() then p + results + 1
    else 0
  }

  /** Hide the latest tool exchange and force the conversation to finish; None when that is impossible. */
  function RollBackLatestExchange(cfg: Config, st: State, reason: string, trigger: Trigger): (r: Option<Work>)
    ensures r.Some? ==> Tracks(r.value) && r.value.base == st
  {
    if st.log == [] then Some(Raise(Begin(st), ConversationNotInitialized))
    else if ActionOf(st.stage) != Some(CallModel) then Some(Raise(Begin(st), WrongStage))
    else
      var n := LatestExchange(cfg, st.view.visible);
      if n == 0 || ContextLimitRollback !in Next(st.stage) then None
      else Some(Inject(cfg, Transit(Append(Begin(st), [BuildRollback(n, reason)]), ContextLimitRollback), trigger))
  }

  /** Discard the pending tool calls and the message that made them; None when no rollback is left. */
  function RollBackToolCalls(cfg: Config, st: State, reason: string): (r: Option<Work>)
    ensures r.Some? ==> Tracks(r.value) && r.value.base == st
  {
    if !MayRollBack(cfg, st) then None
    else
      var w := Begin(st).(st := UndoTurn(st).(pending := []));
      Some(Transit(Transit(Append(w, [BuildRollback(1, reason)]), AssistantRollback), ToolMessagesAwaitAssistant))
  }

  // ---------- Outside the stage machine ----------

  function Reopened(st: State): State {
    st.(pending := [], rollbacks := 0, trigger := None, hasPrompt := false, stage := InitialAwaitAssistant)
  }

  /** Calibrate with the provider's token count for the prompt `visible`. */
  function Observe(cfg: Config, st: State, visible: seq<Message>, inputTokens: Option<int>): State {
    if inputTokens.None? || inputTokens.value <= 0 || !cfg.Incremental() || visible != st.view.visible then st
    else
      var raw := RawEstimate(cfg.TrackerEstimator(), st.view, cfg.Probe());
      st.(view := Anchored(st.view, inputTokens.value, raw))
  }

  // ---------- Results ----------

  function ReportedTrigger(st: State): Option<Trigger> {
    if st.stage in {ForceFinalAwaitAssistant, ForceCompleted, ToolCallsRejected, Completed} then st.trigger else None
  }

  function Result(w: Work, errorDuringForceFinal: bool): Outcome<StepResult> {
    if w.error.Some? then Raised(w.error.value)
    else if ActionOf(w.st.stage).None? then Raised(InternalStage)
    else Ok(StepResult(w.st.stage, ActionOf(w.st.stage).value, w.st.view.visible, w.st.log, w.appended, w.path,
                       ReportedTrigger(w.st), errorDuringForceFinal))
  }
}
