/** What each step of the runtime amounts to, as flat tables over the configuration and the messages, and the proof
    that the steps, built from appends, transitions and checks, do exactly what the tables say. */
module RuntimeTables {
  import opened Messages
  import opened Markers
  import opened Visibility
  import opened TrackedView
  import opened Stages
  import opened ContextBudget
  import opened ToolAnswers
  import opened RuntimeSpec
  import opened RuntimeLaws
  import opened RuntimeSteps

  // ---------- Prompts and their size ----------

  /** The force-final prompt: the announcement, the final-response prompt, or both with a blank line between. */
  function ForcePrompt(cfg: Config): seq<Message> {
    match (cfg.earlyStop, cfg.finalPrompt)
    case (None, None) => []
    case (Some(a), None) => [UserMessage(Plain(a))]
    case (None, Some(b)) => [UserMessage(Plain(b))]
    case (Some(a), Some(b)) => [UserMessage(Plain(a + "\n\n" + b))]
  }

  /** The message that stands for the tool schema where the estimator does not count it by itself. */
  function SchemaPrompt(cfg: Config): seq<Message> {
    if cfg.toolSchema.None? || cfg.estimatorIncludesTools then [] else [UserMessage(cfg.toolSchema.value)]
  }

  /** The tokens of a prompt with `extra` messages and the schema: as estimated on the whole of it, and corrected. */
  function Size(cfg: Config, v: View, extra: seq<Message>): int {
    Corrected(cfg, v, cfg.estimator(v.visible + extra + SchemaPrompt(cfg)))
  }

  /** Where counts are kept incrementally, they are corrected by the learned ratio, and replaced by the provider's count
      for the anchored prefix. */
  function Corrected(cfg: Config, v: View, whole: int): int {
    if !cfg.preflight || cfg.window.None? || !cfg.estimatorIsAdditive || cfg.estimatorIncludesTools then whole
    else if v.anchor.Some? && v.anchor.value.raw <= whole
    then Max0(v.anchor.value.observed + CalibrateTokens(whole - v.anchor.value.raw, v.ratio))
    else CalibrateTokens(whole, v.ratio)
  }

  lemma ForcePromptIs(cfg: Config)
    ensures cfg.WarningMessages() == ForcePrompt(cfg)
    ensures cfg.EarlyStopPrompt().Some? <==> ForcePrompt(cfg) != []
  {
  }

  lemma SizeIs(cfg: Config, v: View, extra: seq<Message>)
    requires cfg.Ok()
    ensures PromptTokens(cfg, v, extra) == Size(cfg, v, extra)
  {
    var schema := cfg.Probe();
    assert schema == SchemaPrompt(cfg);
    assert v.visible + (extra + schema) == v.visible + extra + schema;
    if cfg.Incremental() {
      CostSplits(Some(cfg.estimator), v.visible, extra + schema);
    }
  }

  /** What is left of the window after such a prompt and the safety margin. */
  function Room(cfg: Config, v: View, extra: seq<Message>): int
    requires cfg.window.Some?
  {
    cfg.window.value - cfg.safetyMargin - Size(cfg, v, extra)
  }

  predicate Measured(cfg: Config) {
    cfg.preflight && cfg.window.Some?
  }

  /** The generation minimum is missed. */
  predicate BelowMinimum(cfg: Config, v: View) {
    Measured(cfg) && 0 < cfg.minGeneration && Room(cfg, v, []) < cfg.minGeneration
  }

  /** The warning threshold is missed. */
  predicate NearlyFull(cfg: Config, v: View, extra: seq<Message>) {
    Measured(cfg) && Room(cfg, v, extra) < cfg.warningThreshold
  }

  /** The force-final prompt leaves no token. */
  predicate PromptOverflows(cfg: Config, v: View) {
    Measured(cfg) && ForcePrompt(cfg) != [] && Room(cfg, v, ForcePrompt(cfg)) <= 0
  }

  /** The context has to be cut before the model is asked again. */
  predicate Overflows(cfg: Config, v: View) {
    || NearlyFull(cfg, v, [])
    || (ForcePrompt(cfg) != [] && NearlyFull(cfg, v, ForcePrompt(cfg)))
    || PromptOverflows(cfg, v)
  }

  lemma BudgetIs(cfg: Config, v: View)
    requires cfg.Ok() && cfg.preflight
    ensures
      var g, f := GenerationBudget(cfg, v), ForceFinalizationBudget(cfg, v);
      && (g.hardStop <==> BelowMinimum(cfg, v)) && f.hardStop == g.hardStop
      && (g.needsWarning <==> NearlyFull(cfg, v, []) && !BelowMinimum(cfg, v))
      && (!g.hardStop ==> (f.needsWarning || !f.warningFits <==> Overflows(cfg, v)))
    ensures WarningFits(cfg, v) <==> !PromptOverflows(cfg, v)
  {
    hide PromptTokens, Size;
    ForcePromptIs(cfg);
    SizeIs(cfg, v, []);
    SizeIs(cfg, v, ForcePrompt(cfg));
  }

  // ---------- Rows ----------

  /** What a step does: the stages it passes, the messages it appends, what is visible afterwards, and the counters.
      The last stage of the path is the stage afterwards. */
  datatype Row = Row(
    path: seq<Stage>,
    appended: seq<Message>,
    shown: seq<Message>,
    turns: nat,
    rollbacks: nat,
    pending: seq<ToolCall>,
    trigger: Option<Trigger>,
    hasPrompt: bool)

  function Rest(st: State): Row {
    Row([st.stage], [], st.view.visible, st.turns, st.rollbacks, st.pending, st.trigger, st.hasPrompt)
  }

  function Go(r: Row, next: Stage): Row {
    r.(path := r.path + [next])
  }

  function Say(r: Row, ms: seq<Message>): Row {
    r.(appended := r.appended + ms, shown := r.shown + ms)
  }

  function TakeBack(r: Row, n: nat, reason: string): Row
    requires n <= |r.shown|
  {
    r.(appended := r.appended + [BuildRollback(n, reason)], shown := r.shown[..|r.shown| - n])
  }

  /** The force-final prompt is shown, if there is one, and the model is asked for its last answer. */
  function Force(cfg: Config, r: Row, trigger: Trigger): Row {
    Go(Say(r, ForcePrompt(cfg)), ForceFinalAwaitAssistant).(
      trigger := Some(trigger), hasPrompt := ForcePrompt(cfg) != [])
  }

  /** Forced to finish for the context, unless a generation minimum is set and the prompt does not fit. */
  function Squeeze(cfg: Config, r: Row, v: View): Row {
    if 0 < cfg.minGeneration && PromptOverflows(cfg, v) then Go(r, TokenExceeded) else Force(cfg, r, ContextLimit)
  }

  /** The same after taking back the last `n` messages. */
  function CutBack(cfg: Config, r: Row, v: View, n: nat): Row
    requires n <= |r.shown|
  {
    Squeeze(cfg, Go(TakeBack(r, n, "context_limit"), ContextLimitRollback), Hidden(v, n))
  }

  function RowOf(w: Work): Row {
    Row(w.path, w.appended, w.st.view.visible, w.st.turns, w.st.rollbacks, w.st.pending, w.st.trigger, w.st.hasPrompt)
  }

  /** The step returned, and did what the row says. */
  ghost predicate Does(w: Work, r: Row) {
    && w.error.None? && RowOf(w) == r && r.path != [] && w.st.stage == r.path[|r.path| - 1]
    && w.st.log == w.base.log + r.appended
  }

  // ---------- The parts of a step, as rows ----------

  lemma RowBegin(st: State)
    ensures RowOf(Begin(st)) == Rest(st)
  {
  }

  lemma RowGo(w: Work, next: Stage)
    requires w.error.None? && next in Next(w.st.stage)
    ensures Transit(w, next) == w.(st := w.st.(stage := next), path := w.path + [next])
    ensures RowOf(Transit(w, next)) == Go(RowOf(w), next)
  {
  }

  lemma RowSay(w: Work, ms: seq<Message>)
    requires w.error.None? && w.st.log != []
    requires forall i :: 0 <= i < |ms| ==> ms[i].role != System && ms[i].role != Runtime
    ensures
      Append(w, ms) == w.(st := w.st.(log := w.st.log + ms, view := w.st.view.(visible := w.st.view.visible + ms)),
                          appended := w.appended + ms)
    ensures RowOf(Append(w, ms)) == Say(RowOf(w), ms)
  {
    ViewReplayPlain(w.st.view, ms);
  }

  lemma RowTakeBack(w: Work, n: nat, reason: string)
    requires w.error.None? && w.st.log != [] && 0 < n <= |w.st.view.visible|
    requires forall i :: |w.st.view.visible| - n <= i < |w.st.view.visible| ==> w.st.view.visible[i].role != System
    ensures
      var r := Append(w, [BuildRollback(n, reason)]);
      && r.error.None? && r.path == w.path && RowOf(r) == TakeBack(RowOf(w), n, reason)
      && r.st == w.st.(log := w.st.log + [BuildRollback(n, reason)], view := Hidden(w.st.view, n))
  {
    hide BuildRollback, ViewReplay;
    AppendRollback(w, n, reason);
    HideExactly(w.st.view.visible, n);
  }

  lemma RowForce(cfg: Config, w: Work, trigger: Trigger)
    requires w.error.None? && w.st.log != [] && ForceFinalAwaitAssistant in Next(w.st.stage)
    ensures
      var r := Inject(cfg, w, trigger);
      && r.error.None? && r.st.stage == ForceFinalAwaitAssistant && RowOf(r) == Force(cfg, RowOf(w), trigger)
  {
    hide Append, Transit;
    ForcePromptIs(cfg);
    RowSay(w, ForcePrompt(cfg));
    var w1 := Append(w, ForcePrompt(cfg));
    RowGo(w1.(st := w1.st.(trigger := Some(trigger), hasPrompt := ForcePrompt(cfg) != [])), ForceFinalAwaitAssistant);
  }

  /** Bookkeeping is exact, so the row is all there is to show. */
  lemma DoesRow(w: Work, r: Row)
    requires Tracks(w) && w.error.None? && RowOf(w) == r
    ensures Does(w, r)
  {
  }

  lemma RowSqueeze(cfg: Config, w: Work)
    requires cfg.Ok() && w.error.None? && w.st.log != [] && ForceFinalAwaitAssistant in Next(w.st.stage)
    requires TokenExceeded in Next(w.st.stage) || !(0 < cfg.minGeneration && PromptOverflows(cfg, w.st.view))
    ensures
      var r := ForceFinalizeForContext(cfg, w, false);
      r.error.None? && RowOf(r) == Squeeze(cfg, RowOf(w), w.st.view)
  {
    hide Inject, Transit, Force, PromptOverflows, WarningFits;
    if cfg.preflight {
      BudgetIs(cfg, w.st.view);
    } else {
      NothingOverflows(cfg, w.st.view);
    }
    if 0 < cfg.minGeneration && PromptOverflows(cfg, w.st.view) {
      RowGo(w, TokenExceeded);
    } else {
      RowForce(cfg, w, ContextLimit);
    }
  }

  lemma NothingOverflows(cfg: Config, v: View)
    requires !cfg.preflight
    ensures !PromptOverflows(cfg, v) && !Overflows(cfg, v) && !BelowMinimum(cfg, v)
  {
  }

  /** With a rollback, the messages back to the last assistant message are taken back first. */
  lemma RowCutBack(cfg: Config, w: Work)
    requires cfg.Ok() && w.error.None? && w.st.log != [] && ContextLimitRollback in Next(w.st.stage)
    requires RollbackSize(w.st.view.visible) > 0
    ensures
      var r := ForceFinalizeForContext(cfg, w, true);
      r.error.None? && RowOf(r) == CutBack(cfg, RowOf(w), w.st.view, RollbackSize(w.st.view.visible))
  {
    hide Inject, Transit, Squeeze, PromptOverflows, WarningFits, RollbackSize, Hidden;
    var n := RollbackSize(w.st.view.visible);
    RollbackSizeMeaning(w.st.view.visible);
    RowTakeBack(w, n, ReasonText(ContextLimit));
    var w1 := Append(w, [BuildRollback(n, ReasonText(ContextLimit))]);
    RowGo(w1, ContextLimitRollback);
    var w2 := Transit(w1, ContextLimitRollback);
    RowSqueeze(cfg, w2);
    assert ForceFinalizeForContext(cfg, w2, false) == ForceFinalizeForContext(cfg, w, true);
  }

  // ---------- An answer ----------

  /** Asked for once more with a prompt of the user: unless it is the last permitted turn, at the given stage. */
  function Ask(cfg: Config, r: Row, prompt: Text, next: Stage): Row {
    var asked := Go(Say(r, [UserMessage(prompt)]), next);
    if cfg.maxTurns == Some(asked.turns + 1) then Force(cfg, asked, TurnLimit) else asked
  }

  /** The answer is hidden again: it takes no turn, but one rollback. */
  function Undo(st: State, taken: Row, reason: string): Row
    requires taken.shown != []
  {
    var next := if st.stage == InitialAwaitAssistant then InitialAwaitAssistant else ToolMessagesAwaitAssistant;
    Go(Go(TakeBack(taken, 1, reason), AssistantRollback), next).(turns := st.turns, rollbacks := st.rollbacks + 1)
  }

  /** A text answer before the final round. None: an empty final-response prompt is due. */
  function TextRow(cfg: Config, st: State, m: Message, taken: Row): Option<Row>
    requires taken.shown != []
  {
    var left := st.rollbacks < cfg.maxRollbacks;
    var misformatted := m.content.Some? && cfg.misformats(m.content.value);
    if left && m.content.Some? && cfg.refuses(m.content.value) then Some(Undo(st, taken, "assistant_refusal"))
    else if left && misformatted && cfg.strategy == FormatErrorStrategy.Rollback then
      Some(Undo(st, taken, "format_error"))
    else if misformatted && cfg.strategy == FormatErrorStrategy.Reprompt then
      Some(Ask(cfg, taken, cfg.reprompt, FormatErrorAwaitAssistant))
    else
      var accepted := taken.(rollbacks := 0);
      match cfg.finalPrompt
      case None => Some(Go(accepted, Completed))
      case Some(prompt) =>
        if prompt == "" then None else Some(Ask(cfg, accepted, Plain(prompt), FinalPromptAwaitAssistant))
  }

  /** The stage that the last answer of a forced ending leads to. */
  function LastStage(m: Message, cutShort: bool, prompted: bool): Stage {
    if m.HasToolCalls() then ToolCallsRejected
    else if cutShort && !m.HasContent() then TokenExceeded
    else if prompted then ForceCompleted
    else Completed
  }

  /** What an answer does. None: it raises. */
  function AnswerRow(cfg: Config, st: State, m: Message, cutShort: bool): Option<Row> {
    var taken := Go(Say(Rest(st), [m]), AssistantReceived).(turns := st.turns + 1);
    var v := st.view.(visible := st.view.visible + [m]);
    if st.stage == ForceFinalAwaitAssistant then Some(Go(taken, LastStage(m, cutShort, ForcePrompt(cfg) != [])))
    else if cutShort || BelowMinimum(cfg, v) then Some(Go(taken, TokenExceeded))
    else if 0 < cfg.minGeneration && NearlyFull(cfg, v, []) then Some(Squeeze(cfg, taken, v))
    else if m.HasToolCalls() then Some(Go(taken, ToolCallsAwaitTool).(pending := m.toolCalls.value))
    else if st.stage == FinalPromptAwaitAssistant then Some(Go(taken, Completed).(rollbacks := 0))
    else TextRow(cfg, st, m, taken)
  }

  ghost predicate Taken(cfg: Config, st: State, m: Message, w: Work, taken: Row) {
    && Answered(cfg, st, m, w)
    && taken == Go(Say(Rest(st), [m]), AssistantReceived).(turns := st.turns + 1) && RowOf(w) == taken
  }

  lemma RowTaken(cfg: Config, st: State, m: Message)
    requires Inv(cfg, st) && ActionOf(st.stage) == Some(CallModel) && m.role == Assistant
    ensures Taken(cfg, st, m, Receive(st, m), Go(Say(Rest(st), [m]), AssistantReceived).(turns := st.turns + 1))
  {
    hide Inv, Tracks, Transit, Append;
    AnswerReceived(cfg, st, m);
    assert st.log != [] by { InvLog(cfg, st); }
    RowSay(Begin(st), [m]);
    var w := Append(Begin(st), [m]);
    RowGo(w.(st := w.st.(turns := w.st.turns + 1)), AssistantReceived);
  }

  lemma InvLog(cfg: Config, st: State)
    requires Inv(cfg, st)
    ensures st.log != []
  {
  }

  lemma RowUndo(cfg: Config, st: State, m: Message, w: Work, taken: Row, reason: string)
    requires Taken(cfg, st, m, w, taken) && Awaiting(st.stage)
    ensures
      var r := RollBackAssistant(w, st.stage, reason);
      r.error.None? && RowOf(r) == Undo(st, taken, reason)
  {
    hide Inv, Tracks, Transit, Append, BuildRollback, Hidden;
    var w0 := w.(st := UndoTurn(w.st));
    RowTakeBack(w0, 1, reason);
    var w1 := Append(w0, [BuildRollback(1, reason)]);
    RowGo(w1, AssistantRollback);
    RowGo(Transit(w1, AssistantRollback), RollbackTarget(st.stage));
  }

  lemma RowAsk(cfg: Config, w: Work, prompt: Text, next: Stage)
    requires w.error.None? && w.st.log != [] && next in Next(w.st.stage)
    requires next == FinalPromptAwaitAssistant || next == FormatErrorAwaitAssistant
    ensures
      var r := Prompt(cfg, w, prompt, next);
      r.error.None? && RowOf(r) == Ask(cfg, RowOf(w), prompt, next)
  {
    hide Transit, Append, Inject, Force;
    RowSay(w, [UserMessage(prompt)]);
    var w1 := Append(w, [UserMessage(prompt)]);
    RowGo(w1, next);
    var w2 := Transit(w1, next);
    if TurnLimitReached(cfg, w2.st) {
      RowForce(cfg, w2, TurnLimit);
    }
  }

  lemma RowAccept(cfg: Config, st: State, m: Message, w: Work, taken: Row)
    requires Taken(cfg, st, m, w, taken) && Awaiting(st.stage) && st.stage != FinalPromptAwaitAssistant
    ensures
      var r, accepted := Accept(cfg, w, st.stage), taken.(rollbacks := 0);
      match cfg.finalPrompt
      case None => r.error.None? && RowOf(r) == Go(accepted, Completed)
      case Some(prompt) =>
        if prompt == "" then r.error == Some(EmptyFinalPrompt)
        else r.error.None? && RowOf(r) == Ask(cfg, accepted, Plain(prompt), FinalPromptAwaitAssistant)
  {
    hide Inv, Tracks, Transit, Ask, Prompt;
    var w1 := w.(st := w.st.(rollbacks := 0));
    assert ResetRollbacks(w) == w1;
    if cfg.finalPrompt.None? {
      RowGo(w1, Completed);
    } else if cfg.finalPrompt.value != "" {
      RowAsk(cfg, w1, Plain(cfg.finalPrompt.value), FinalPromptAwaitAssistant);
    }
  }

  /** The step raised for the empty final-response prompt, or did what the row says. */
  ghost predicate Follows(w: Work, row: Option<Row>) {
    if row.None? then w.error == Some(EmptyFinalPrompt) else w.error.None? && RowOf(w) == row.value
  }

  lemma RowText(cfg: Config, st: State, m: Message, w: Work, taken: Row)
    requires Taken(cfg, st, m, w, taken) && Awaiting(st.stage) && st.stage != FinalPromptAwaitAssistant
    requires !m.HasToolCalls()
    ensures Follows(HandleText(cfg, w, st.stage, m), TextRow(cfg, st, m, taken))
  {
    hide Inv, Tracks, RollBackAssistant, Undo, Prompt, Ask, Accept;
    assert w.st.rollbacks == st.rollbacks && w.st.stage == AssistantReceived && w.st.log != [];
    RowAccept(cfg, st, m, w, taken);
    RowUndo(cfg, st, m, w, taken, "assistant_refusal");
    RowUndo(cfg, st, m, w, taken, "format_error");
    RowAsk(cfg, w, cfg.reprompt, FormatErrorAwaitAssistant);
  }

  /** Every answer does exactly what the table says. */
  lemma AnswerTable(cfg: Config, st: State, m: Message, cutShort: bool)
    requires cfg.Ok() && Inv(cfg, st) && ActionOf(st.stage) == Some(CallModel) && m.role == Assistant
    ensures
      var w, row := ApplyAssistant(cfg, st, m, cutShort), AnswerRow(cfg, st, m, cutShort);
      if row.None? then w.error == Some(EmptyFinalPrompt) else Does(w, row.value)
  {
    hide Inv, Receive, Dispatch, Does, TextRow, Squeeze, BelowMinimum, NearlyFull;
    assert st.log != [] by { InvLog(cfg, st); }
    RowTaken(cfg, st, m);
    var w, taken := Receive(st, m), Go(Say(Rest(st), [m]), AssistantReceived).(turns := st.turns + 1);
    RowDispatch(cfg, st, m, w, taken, cutShort);
    var r, row := ApplyAssistant(cfg, st, m, cutShort), AnswerRow(cfg, st, m, cutShort);
    if row.Some? {
      DoesRow(r, row.value);
    }
  }

  lemma RowDispatch(cfg: Config, st: State, m: Message, w: Work, taken: Row, cutShort: bool)
    requires cfg.Ok() && Taken(cfg, st, m, w, taken)
    ensures Follows(Dispatch(cfg, w, st.stage, m, cutShort), AnswerRow(cfg, st, m, cutShort))
  {
    if st.stage == ForceFinalAwaitAssistant {
      RowLast(cfg, st, m, w, taken, cutShort);
    } else {
      RowFree(cfg, st, m, w, taken, cutShort);
    }
  }

  lemma RowLast(cfg: Config, st: State, m: Message, w: Work, taken: Row, cutShort: bool)
    requires Taken(cfg, st, m, w, taken) && st.stage == ForceFinalAwaitAssistant
    ensures
      var r := Dispatch(cfg, w, st.stage, m, cutShort);
      r.error.None? && RowOf(r) == Go(taken, LastStage(m, cutShort, ForcePrompt(cfg) != []))
  {
    hide Tracks, Transit;
    assert st.hasPrompt == (ForcePrompt(cfg) != []) by { ForcePromptIs(cfg); }
    hide Inv;
    RowGo(w, LastStage(m, cutShort, st.hasPrompt));
  }

  lemma RowChecked(cfg: Config, w: Work)
    requires cfg.Ok() && w.error.None? && w.st.log != [] && w.st.stage == AssistantReceived
    ensures
      var c, v := GenerationCheck(cfg, w, true, false), w.st.view;
      if BelowMinimum(cfg, v) then c.Some? && c.value.error.None? && RowOf(c.value) == Go(RowOf(w), TokenExceeded)
      else if 0 < cfg.minGeneration && NearlyFull(cfg, v, []) then
        c.Some? && c.value.error.None? && RowOf(c.value) == Squeeze(cfg, RowOf(w), v)
      else c.None?
  {
    hide Transit, ForceFinalizeForContext, GenerationBudget, ForceFinalizationBudget, WarningFits, Squeeze;
    RowGo(w, TokenExceeded);
    RowSqueeze(cfg, w);
    if cfg.preflight {
      BudgetIs(cfg, w.st.view);
    }
  }

  lemma RowFinal(cfg: Config, st: State, m: Message, w: Work, taken: Row)
    requires Taken(cfg, st, m, w, taken) && st.stage == FinalPromptAwaitAssistant
    ensures
      var r := HandleText(cfg, w, st.stage, m);
      r.error.None? && RowOf(r) == Go(taken, Completed).(rollbacks := 0)
  {
    hide Inv, Tracks, Transit;
    RowGo(w.(st := w.st.(rollbacks := 0)), Completed);
  }

  lemma RowFree(cfg: Config, st: State, m: Message, w: Work, taken: Row, cutShort: bool)
    requires cfg.Ok() && Taken(cfg, st, m, w, taken) && Awaiting(st.stage)
    ensures Follows(Dispatch(cfg, w, st.stage, m, cutShort), AnswerRow(cfg, st, m, cutShort))
  {
    hide Inv, Tracks, GenerationCheck, HandleText, TextRow, Squeeze, BelowMinimum, NearlyFull, Transit;
    assert w.st.view == st.view.(visible := st.view.visible + [m]) && w.st.log != [];
    RowGo(w, TokenExceeded);
    RowGo(w, ToolCallsAwaitTool);
    RowChecked(cfg, w);
    if !m.HasToolCalls() && st.stage == FinalPromptAwaitAssistant {
      RowFinal(cfg, st, m, w, taken);
    } else if !m.HasToolCalls() {
      RowText(cfg, st, m, w, taken);
    } else {
      RowGo(w.(st := w.st.(pending := m.toolCalls.value)), ToolCallsAwaitTool);
    }
  }

  // ---------- Tool results ----------

  /** What a batch of results does, once merged to the messages `all`. An exchange that overflows is taken back as a
      whole, with the message that made the calls. */
  function ResultsRow(cfg: Config, st: State, all: seq<Message>, exhausted: bool): Row
    requires st.view.visible != []
  {
    var arrived := Go(Say(Rest(st), all), ToolMessagesAwaitAssistant).(pending := []);
    var v := st.view.(visible := st.view.visible + all);
    if exhausted then Force(cfg, arrived, ToolsExhausted)
    else if BelowMinimum(cfg, v) then Go(arrived, TokenExceeded)
    else if Overflows(cfg, v) then CutBack(cfg, arrived, v, |all| + 1)
    else if cfg.maxTurns == Some(st.turns + 1) then Force(cfg, arrived, TurnLimit)
    else arrived
  }

  lemma RowAfterResults(cfg: Config, w: Work)
    requires cfg.Ok() && w.error.None? && w.st.log != [] && w.st.stage == ToolMessagesAwaitAssistant
    requires RollbackSize(w.st.view.visible) > 0
    ensures
      var r, v := AfterToolResults(cfg, w), w.st.view;
      && r.error.None?
      && RowOf(r) ==
         if BelowMinimum(cfg, v) then Go(RowOf(w), TokenExceeded)
         else if Overflows(cfg, v) then CutBack(cfg, RowOf(w), v, RollbackSize(v.visible))
         else if cfg.maxTurns == Some(w.st.turns + 1) then Force(cfg, RowOf(w), TurnLimit)
         else RowOf(w)
  {
    hide Transit, ForceFinalizeForContext, GenerationBudget, ForceFinalizationBudget, WarningFits, Inject, Go, Force,
      CutBack, BelowMinimum, Overflows, NearlyFull, RollbackSize, RowOf;
    RowGo(w, TokenExceeded);
    RowForce(cfg, w, TurnLimit);
    RowCutBack(cfg, w);
    if cfg.preflight {
      BudgetIs(cfg, w.st.view);
      FullOverflows(cfg, w.st.view);
    } else {
      NothingOverflows(cfg, w.st.view);
    }
  }

  lemma FullOverflows(cfg: Config, v: View)
    ensures NearlyFull(cfg, v, []) ==> Overflows(cfg, v)
  {
  }

  lemma CallsInSight(cfg: Config, st: State)
    requires Inv(cfg, st) && st.stage == ToolCallsAwaitTool
    ensures st.log != [] && EndsWithCalls(st.view.visible, st.pending) && st.pending != []
  {
  }

  /** A batch that answers the pending calls does exactly what the table says. */
  lemma ResultsTable(cfg: Config, st: State, results: seq<Message>, exhausted: bool, rejected: set<string>)
    requires cfg.Ok() && Inv(cfg, st) && st.stage == ToolCallsAwaitTool
    requires Answers(results, st.pending) && AllTool(results)
    ensures
      var all := Merged(cfg, results, rejected);
      Does(ApplyToolResults(cfg, st, results, exhausted, rejected), ResultsRow(cfg, st, all, exhausted))
  {
    hide Inv, Resolve, Answers, AllTool, ToolWork, AfterToolResults, Go, Say, Rest, RowOf, Force, CutBack, Does, Tracks,
      Inject, BelowMinimum, Overflows, RollbackSize;
    CallsInSight(cfg, st);
    ResolvedBatch(cfg, st.pending, results, rejected);
    var all := Resolve(cfg, st.pending, results, rejected).value;
    MergedIs(cfg, st.pending, results, rejected);
    RowResults(st, all);
    var w, v := ToolWork(st, all), st.view.visible;
    assert v == v[..|v| - 1] + [v[|v| - 1]];
    RollbackReachesTheCall(v[..|v| - 1], v[|v| - 1], all);
    RowAfterResults(cfg, w);
    RowForce(cfg, w, ToolsExhausted);
    DoesRow(ApplyToolResults(cfg, st, results, exhausted, rejected), ResultsRow(cfg, st, all, exhausted));
  }

  /** The messages that stand for a batch of results: rejected ones that say the same are merged on request. */
  function Merged(cfg: Config, results: seq<Message>, rejected: set<string>): seq<Message> {
    if cfg.aggregateRejected then Aggregate(results, rejected, cfg.joinNames) else results
  }

  lemma MergedIs(cfg: Config, pending: seq<ToolCall>, results: seq<Message>, rejected: set<string>)
    requires Answers(results, pending)
    ensures Resolve(cfg, pending, results, rejected) == Some(Merged(cfg, results, rejected))
  {
  }

  lemma RowResults(st: State, all: seq<Message>)
    requires st.log != [] && st.stage == ToolCallsAwaitTool && AllTool(all)
    ensures
      var w := ToolWork(st, all);
      && w.error.None? && w.st.log != [] && w.st.stage == ToolMessagesAwaitAssistant
      && w.st.view == st.view.(visible := st.view.visible + all) && w.st.turns == st.turns
      && RowOf(w) == Go(Say(Rest(st), all), ToolMessagesAwaitAssistant).(pending := [])
  {
    hide Transit, Append;
    var w := Begin(st).(st := st.(pending := []));
    RowSay(w, all);
    RowGo(Append(w, all), ToolMessagesAwaitAssistant);
  }

  // ---------- Recoveries ----------

  /** Recovery after the provider refused the prompt for its length. After tool results, what came since the last answer
      is taken back, with that answer; elsewhere nothing is. None: it raises, as there is nothing left to do. */
  function RefusedPromptRow(cfg: Config, st: State): Option<Row> {
    var n := RollbackSize(st.view.visible);
    if st.stage == ForceFinalAwaitAssistant then Some(Rest(st))
    else if st.stage == ToolMessagesAwaitAssistant then
      Some(if n == 0 then Squeeze(cfg, Rest(st), st.view) else CutBack(cfg, Rest(st), st.view, n))
    else if 0 < cfg.minGeneration && PromptOverflows(cfg, st.view) then None
    else Some(Force(cfg, Rest(st), ContextLimit))
  }

  lemma RefusedPromptTable(cfg: Config, st: State)
    requires cfg.Ok() && Inv(cfg, st) && ActionOf(st.stage) == Some(CallModel)
    ensures
      var w, row := RecoverFromContextError(cfg, st), RefusedPromptRow(cfg, st);
      if row.None? then w.error == Some(BadTransition) && w.st == st else Does(w, row.value)
  {
    hide Inv, Tracks, Does, ForceFinalizeForContext, RollbackSize, Squeeze, CutBack, PromptOverflows;
    InvLog(cfg, st);
    var w, row := RecoverFromContextError(cfg, st), RefusedPromptRow(cfg, st);
    RowRefused(cfg, st);
    if row.Some? {
      DoesRow(w, row.value);
    }
  }

  lemma RowRefused(cfg: Config, st: State)
    requires cfg.Ok() && st.log != [] && ActionOf(st.stage) == Some(CallModel)
    ensures
      var w, row := RecoverFromContextError(cfg, st), RefusedPromptRow(cfg, st);
      if row.None? then w.error == Some(BadTransition) && w.st == st else w.error.None? && RowOf(w) == row.value
  {
    hide ForceFinalizeForContext, RollbackSize, PromptOverflows, CutBack, Squeeze;
    RowBegin(st);
    if st.stage == ToolMessagesAwaitAssistant && RollbackSize(st.view.visible) > 0 {
      RowCutBack(cfg, Begin(st));
    } else if st.stage != ForceFinalAwaitAssistant {
      NothingTakenBack(cfg, st);
      if st.stage == ToolMessagesAwaitAssistant || !(0 < cfg.minGeneration && PromptOverflows(cfg, st.view)) {
        RowSqueeze(cfg, Begin(st));
        if st.stage != ToolMessagesAwaitAssistant {
          SqueezeForces(cfg, Rest(st), st.view);
        }
      } else {
        NoWayOut(cfg, Begin(st));
      }
    }
  }

  lemma NothingTakenBack(cfg: Config, st: State)
    requires ContextLimitRollback !in Next(st.stage) || RollbackSize(st.view.visible) == 0
    ensures ForceFinalizeForContext(cfg, Begin(st), true) == ForceFinalizeForContext(cfg, Begin(st), false)
  {
  }

  lemma SqueezeForces(cfg: Config, r: Row, v: View)
    requires !(0 < cfg.minGeneration && PromptOverflows(cfg, v))
    ensures Squeeze(cfg, r, v) == Force(cfg, r, ContextLimit)
  {
  }

  lemma NoWayOut(cfg: Config, w: Work)
    requires cfg.Ok() && w.error.None? && TokenExceeded !in Next(w.st.stage)
    requires 0 < cfg.minGeneration && PromptOverflows(cfg, w.st.view)
    ensures ForceFinalizeForContext(cfg, w, false) == Raise(w, BadTransition)
  {
    hide WarningFits;
    BudgetIs(cfg, w.st.view);
  }

  /** Recovery from empty responses: the latest exchange is taken back, if there is one and the stage may roll back. */
  function EmptyResponseRow(cfg: Config, st: State, reason: string, trigger: Trigger): Option<Row> {
    var n := LatestExchange(cfg, st.view.visible);
    if n == 0 || (st.stage != ToolMessagesAwaitAssistant && st.stage != ForceFinalAwaitAssistant) then None
    else Some(Force(cfg, Go(TakeBack(Rest(st), n, reason), ContextLimitRollback), trigger))
  }

  lemma EmptyResponseTable(cfg: Config, st: State, reason: string, trigger: Trigger)
    requires Inv(cfg, st) && ActionOf(st.stage) == Some(CallModel)
    ensures
      var r, row := RollBackLatestExchange(cfg, st, reason, trigger), EmptyResponseRow(cfg, st, reason, trigger);
      && (r.None? <==> row.None?)
      && (r.Some? ==> Does(r.value, row.value))
  {
    hide Inv, Tracks, Does, LatestExchange, Append, Transit, Inject, Go, TakeBack, RowOf, Force, BuildRollback, Hidden;
    InvLog(cfg, st);
    var n := LatestExchange(cfg, st.view.visible);
    if n > 0 && ContextLimitRollback in Next(st.stage) {
      ExchangeHasNoSystem(cfg, st.view.visible);
      RowBegin(st);
      RowTakeBack(Begin(st), n, reason);
      var w := Append(Begin(st), [BuildRollback(n, reason)]);
      RowGo(w, ContextLimitRollback);
      RowForce(cfg, Transit(w, ContextLimitRollback), trigger);
      DoesRow(RollBackLatestExchange(cfg, st, reason, trigger).value, EmptyResponseRow(cfg, st, reason, trigger).value);
    }
  }

  lemma ExchangeHasNoSystem(cfg: Config, v: seq<Message>)
    requires LatestExchange(cfg, v) > 0
    ensures forall i :: |v| - LatestExchange(cfg, v) <= i < |v| ==> v[i].role != System
  {
    var n, p := LatestExchange(cfg, v), TrailingPrompt(cfg, v);
    LatestExchangeMeaning(cfg, v);
    forall i | |v| - n <= i < |v| ensures v[i].role != System {
      if |v| - n < i < |v| - p {
        assert IsToolResult(v[|v| - n + 1..|v| - p][i - (|v| - n + 1)]);
      }
    }
  }

  /** Discarding the pending calls, unless the rollback budget is spent. */
  function DiscardRow(cfg: Config, st: State, reason: string): Option<Row>
    requires st.view.visible != []
  {
    if st.rollbacks >= cfg.maxRollbacks then None
    else
      var back := Go(Go(TakeBack(Rest(st), 1, reason), AssistantRollback), ToolMessagesAwaitAssistant);
      Some(back.(pending := [], rollbacks := st.rollbacks + 1, turns := Max0(st.turns - 1)))
  }

  lemma DiscardTable(cfg: Config, st: State, reason: string)
    requires Inv(cfg, st) && st.stage == ToolCallsAwaitTool
    ensures
      var r, row := RollBackToolCalls(cfg, st, reason), DiscardRow(cfg, st, reason);
      && (r.None? <==> row.None?)
      && (r.Some? ==> Does(r.value, row.value))
  {
    hide Inv, Tracks, Does, Append, Transit, BuildRollback, Hidden;
    CallsInSight(cfg, st);
    if MayRollBack(cfg, st) {
      var w := Begin(st).(st := UndoTurn(st).(pending := []));
      RowTakeBack(w, 1, reason);
      var w1 := Append(w, [BuildRollback(1, reason)]);
      RowGo(w1, AssistantRollback);
      RowGo(Transit(w1, AssistantRollback), ToolMessagesAwaitAssistant);
      DoesRow(RollBackToolCalls(cfg, st, reason).value, DiscardRow(cfg, st, reason).value);
    }
  }

  // ---------- Opening ----------

  /** A conversation opens with the system prompt, if one is set and not empty, and the task; with one permitted turn
      the model is forced to finish at once. */
  function OpeningRow(cfg: Config, task: Text): Row {
    var asked := Go(Say(GreetingRow(cfg), [UserMessage(task)]), InitialAwaitAssistant);
    if cfg.maxTurns == Some(1) then Force(cfg, asked, TurnLimit) else asked
  }

  function GreetingRow(cfg: Config): Row {
    if cfg.systemPrompt.None? || cfg.systemPrompt.value == "" then Rest(FRESH)
    else Go(Say(Rest(FRESH), [SystemMessage(Plain(cfg.systemPrompt.value))]), SystemMessageSet)
  }

  lemma OpeningTable(cfg: Config, task: Text)
    ensures Does(Initialize(cfg, FRESH, task), OpeningRow(cfg, task))
  {
    hide Tracks, Does, Append, Transit, Inject, Force, ContextCheckpoint;
    var w := Opened(cfg, FRESH, task);
    RowOpened(cfg, task);
    CheckpointSkipped(cfg, w);
    RowForce(cfg, w, TurnLimit);
    DoesRow(Initialize(cfg, FRESH, task), OpeningRow(cfg, task));
  }

  lemma RowOpened(cfg: Config, task: Text)
    ensures
      var w := Opened(cfg, FRESH, task);
      && w.error.None? && w.st.log != [] && w.st.stage == InitialAwaitAssistant && w.st.turns == 0
      && RowOf(w) == Go(Say(GreetingRow(cfg), [UserMessage(task)]), InitialAwaitAssistant)
  {
    hide Append, Transit, Go, Say, RowOf;
    if cfg.systemPrompt.Some? && cfg.systemPrompt.value != "" {
      var m := SystemMessage(Plain(cfg.systemPrompt.value));
      RowFirst(m);
      RowGo(Append(Begin(FRESH), [m]), SystemMessageSet);
      var w := Transit(Append(Begin(FRESH), [m]), SystemMessageSet);
      RowSay(w, [UserMessage(task)]);
      RowGo(Append(w, [UserMessage(task)]), InitialAwaitAssistant);
    } else {
      RowFirst(UserMessage(task));
      RowGo(Append(Begin(FRESH), [UserMessage(task)]), InitialAwaitAssistant);
    }
  }

  lemma RowFirst(m: Message)
    requires m.role == System || m.role == User
    ensures
      var w := Append(Begin(FRESH), [m]);
      && w.error.None? && w.st.log == [m] && w.st.stage == NotInitialized && w.st.turns == 0
      && RowOf(w) == Say(Rest(FRESH), [m])
  {
    FirstMessage(m);
    assert [] + [m] == [m];
  }

  // ---------- The latest exchange ----------

  /** The force-final prompt as a message of the user, whatever else the message carries; an empty one is not looked
      for. */
  predicate IsForcePrompt(cfg: Config, m: Message) {
    && ForcePrompt(cfg) != [] && ForcePrompt(cfg)[0].HasContent()
    && m.role == User && m.content == ForcePrompt(cfg)[0].content
  }

  /** The last `n` messages are an assistant message with tool calls, at least one result and nothing but results after
      it, and the force-final prompt if that is the last message. */
  predicate EndsWithExchange(cfg: Config, v: seq<Message>, n: nat) {
    var p := if v != [] && IsForcePrompt(cfg, v[|v| - 1]) then 1 else 0;
    && p + 2 <= n <= |v|
    && v[|v| - n].role == Assistant && v[|v| - n].HasToolCalls()
    && forall i :: |v| - n < i < |v| - p ==> v[i].role == Tool || (v[i].role == User && v[i].toolCallId.Some?)
  }

  lemma TrailingPromptIs(cfg: Config, v: seq<Message>)
    ensures TrailingPrompt(cfg, v) == if v != [] && IsForcePrompt(cfg, v[|v| - 1]) then 1 else 0
  {
    ForcePromptIs(cfg);
  }

  /** The scan finds such an exchange exactly where there is one. */
  lemma LatestExchangeExactly(cfg: Config, v: seq<Message>, n: nat)
    requires n > 0
    ensures LatestExchange(cfg, v) == n <==> EndsWithExchange(cfg, v, n)
  {
    hide TrailingPrompt, IsForcePrompt;
    TrailingPromptIs(cfg, v);
    var p := TrailingPrompt(cfg, v);
    var w := v[..|v| - p];
    TrailingResultsMeaning(w);
    if EndsWithExchange(cfg, v, n) {
      var r := TrailingResults(w);
      assert w[|v| - n] == v[|v| - n] && !IsToolResult(w[|v| - n]);
      assert r <= n - p - 1;
    } else if LatestExchange(cfg, v) == n {
      forall i | |v| - n < i < |v| - p ensures IsToolResult(v[i]) {
        assert w[i] == v[i];
      }
    }
  }

  // ---------- What follows from the tables ----------

  /** A forced ending: the answer stops the conversation where it was cut short and is empty; tool calls are rejected;
      any other answer completes it, as forced exactly where a force-final prompt is configured. */
  lemma ForcedEnding(cfg: Config, st: State, m: Message, cutShort: bool)
    requires cfg.Ok() && Inv(cfg, st) && st.stage == ForceFinalAwaitAssistant && m.role == Assistant
    ensures
      var w := ApplyAssistant(cfg, st, m, cutShort);
      var empty := cutShort && !m.HasContent() && !m.HasToolCalls();
      && w.error.None? && w.st.trigger == st.trigger && w.st.trigger.Some?
      && (w.st.stage == TokenExceeded <==> empty)
      && (w.st.stage == ToolCallsRejected <==> m.HasToolCalls())
      && (w.st.stage == ForceCompleted <==>
           !empty && !m.HasToolCalls() && (cfg.earlyStop.Some? || cfg.finalPrompt.Some?))
      && (w.st.stage == Completed <==> !empty && !m.HasToolCalls() && cfg.earlyStop.None? && cfg.finalPrompt.None?)
  {
    hide ApplyAssistant;
    AnswerTable(cfg, st, m, cutShort);
  }

  /** A prompt refused for its length, right after tool results: the model is shown the prompt it had before it made
      the calls, and the force-final prompt. */
  lemma RefusedResultsAreUndone(cfg: Config, st: State, before: seq<Message>, m: Message, all: seq<Message>)
    requires cfg.Ok() && Inv(cfg, st) && st.stage == ToolMessagesAwaitAssistant
    requires st.view.visible == before + [m] + all && m.role == Assistant && AllTool(all)
    ensures
      var w := RecoverFromContextError(cfg, st);
      && w.error.None? && (w.st.stage == ForceFinalAwaitAssistant || w.st.stage == TokenExceeded)
      && (!cfg.MayStop() ==> w.st.stage == ForceFinalAwaitAssistant)
      && w.st.view.visible == before + (if w.st.stage == TokenExceeded then [] else ForcePrompt(cfg))
  {
    hide RecoverFromContextError, RollbackSize, Inv;
    RefusedPromptTable(cfg, st);
    RollbackReachesTheCall(before, m, all);
    assert (before + [m] + all)[..|before|] == before;
  }

  /** A prompt refused elsewhere before the last round: the model is shown all of it again, and the force-final prompt;
      or the recovery raises, as `RecoveryRaises` says. */
  lemma RefusedPromptStays(cfg: Config, st: State)
    requires cfg.Ok() && Inv(cfg, st) && !RecoveryRaises(cfg, st)
    requires st.stage in {InitialAwaitAssistant, FinalPromptAwaitAssistant, FormatErrorAwaitAssistant}
    ensures
      var w := RecoverFromContextError(cfg, st);
      && w.error.None? && w.st.stage == ForceFinalAwaitAssistant && w.st.trigger == Some(ContextLimit)
      && w.st.view.visible == st.view.visible + ForcePrompt(cfg)
  {
    hide RecoverFromContextError, Inv;
    RefusedPromptTable(cfg, st);
    if cfg.preflight {
      BudgetIs(cfg, st.view);
    }
  }

  /** If the model is asked again after tool results, the estimate of its whole prompt, tool schema and any force-final
      prompt included, fits the window with the safety margin and the warning threshold, and with the generation minimum
      where one is set. */
  lemma BudgetGuarantee(cfg: Config, st: State, results: seq<Message>, exhausted: bool, rejected: set<string>)
    requires cfg.Ok() && Inv(cfg, st) && st.stage == ToolCallsAwaitTool && cfg.preflight && cfg.window.Some?
    requires Answers(results, st.pending) && AllTool(results)
    ensures
      var r := ApplyToolResults(cfg, st, results, exhausted, rejected).st;
      var schema :=
        if cfg.toolSchema.Some? && !cfg.estimatorIncludesTools then [UserMessage(cfg.toolSchema.value)] else [];
      var bare, warned := r.view.visible + schema, r.view.visible + ForcePrompt(cfg) + schema;
      var free := cfg.window.value - cfg.safetyMargin;
      r.stage == ToolMessagesAwaitAssistant ==>
        && Corrected(cfg, r.view, cfg.estimator(bare)) + cfg.warningThreshold <= free
        && (0 < cfg.minGeneration ==> Corrected(cfg, r.view, cfg.estimator(bare)) + cfg.minGeneration <= free)
        && (ForcePrompt(cfg) != [] ==>
             && Corrected(cfg, r.view, cfg.estimator(warned)) + cfg.warningThreshold <= free
             && Corrected(cfg, r.view, cfg.estimator(warned)) + 1 <= free)
  {
    hide ApplyToolResults, Replay, ForceFinalizationBudget, GenerationBudget, PromptTokens, Resolve, Answers, Corrected,
      Tracks;
    ToolResultsStep(cfg, st, results, exhausted, rejected);
    var v := ApplyToolResults(cfg, st, results, exhausted, rejected).st.view;
    BudgetIs(cfg, v);
    assert v.visible + [] == v.visible;
  }

  // ---------- Reports ----------

  /** What the orchestrator is told: the row, the whole log, the action of the last stage, and the recorded trigger
      where generation is or was forced to finish, or is complete. */
  lemma RowReports(w: Work, r: Row, flag: bool)
    requires Does(w, r) && ActionOf(w.st.stage).Some?
    ensures Result(w, flag).Ok?
    ensures
      var report, last := Result(w, flag).value, r.path[|r.path| - 1];
      && report.stage == last && Some(report.action) == ActionOf(last) && report.path == r.path
      && report.visible == r.shown && report.appended == r.appended && report.full == w.base.log + r.appended
      && report.errorDuringForceFinal == flag
      && report.trigger == (match last
                            case ForceFinalAwaitAssistant => r.trigger
                            case ForceCompleted => r.trigger
                            case ToolCallsRejected => r.trigger
                            case Completed => r.trigger
                            case _ => None)
  {
  }

  // ---------- Observations ----------

  /** The provider's token count is used exactly if it is positive, is for the very prompt now visible, and counts are
      kept incrementally and not all zero; from then on the estimate of that prompt is that count. */
  lemma ObservationTable(cfg: Config, st: State, visible: seq<Message>, tokens: Option<int>)
    requires cfg.Ok()
    ensures
      var after, n := Observe(cfg, st, visible, tokens), if tokens.None? then 0 else tokens.value;
      var raw := cfg.estimator(st.view.visible + SchemaPrompt(cfg));
      var used := 0 < n && visible == st.view.visible && 0 < raw
                  && cfg.preflight && cfg.window.Some? && cfg.estimatorIsAdditive && !cfg.estimatorIncludesTools;
      && (!used ==> after == st)
      && (used ==>
           && after == st.(view := after.view) && after.view.visible == st.view.visible
           && after.view.anchor == Some(Anchor(|visible|, raw, n))
           && after.view.ratio == NextRatio(st.view.ratio, n, raw)
           && Size(cfg, after.view, []) == n)
  {
    if cfg.Incremental() {
      assert cfg.Probe() == SchemaPrompt(cfg);
      CostSplits(Some(cfg.estimator), st.view.visible, SchemaPrompt(cfg));
      assert st.view.visible + [] == st.view.visible;
    }
  }

  // ---------- Outside the steps ----------

  /** A reopened runtime shows what it showed, keeps its log, its turns and what it has learned, and has forgotten the
      rest. */
  lemma ReopenTable(st: State)
    ensures
      var r := Reopened(st);
      && Rest(r) == Row([InitialAwaitAssistant], [], st.view.visible, st.turns, 0, [], None, false)
      && r.log == st.log && r.view == st.view
  {
  }

  /** Messages are appended unless one of them is a system message anywhere but at the very beginning of the log, or
      neither a system nor a user message there; the first such message names the error. */
  lemma AppendRejects(log: seq<Message>, ms: seq<Message>)
    ensures
      AppendError(log, ms).None? <==>
        forall i :: 0 <= i < |ms| ==>
          if log == [] && i == 0 then ms[i].role == System || ms[i].role == User else ms[i].role != System
    ensures AppendError(log, ms) == Some(BadFirstMessage) <==>
              log == [] && ms != [] && ms[0].role != System && ms[0].role != User
    ensures AppendError(log, ms) in {None, Some(BadFirstMessage), Some(LateSystemMessage)}
  {
  }

  // ---------- Misuse ----------

  /** An answer that does not fit the stage raises and changes nothing. */
  lemma MisplacedAnswer(cfg: Config, st: State, m: Message, cutShort: bool)
    requires m.role != Assistant || st.log == [] || ActionOf(st.stage) != Some(CallModel)
    ensures
      var w := ApplyAssistant(cfg, st, m, cutShort);
      && w.st == st && w.appended == []
      && w.error == Some(if m.role != Assistant then NotAssistantMessage
                         else if st.log == [] then ConversationNotInitialized else WrongStage)
  {
  }

  /** Results that are not accepted raise, and leave no call pending. */
  lemma MisplacedResults(cfg: Config, st: State, results: seq<Message>, exhausted: bool, rejected: set<string>)
    requires !Answers(results, st.pending) || st.log == [] || st.stage != ToolCallsAwaitTool
             || (!cfg.aggregateRejected && (results == [] || !AllTool(results)))
    ensures
      var w := ApplyToolResults(cfg, st, results, exhausted, rejected);
      w.error.Some? && w.st == st.(pending := []) && w.appended == []
  {
    hide ToolWork, AfterToolResults, Inject, Aggregate, Answers, AllTool;
  }

  /** A conversation is opened once, and before anything else. */
  lemma MisplacedOpening(cfg: Config, st: State, task: Text)
    ensures st.log != [] ==> Initialize(cfg, st, task) == Raise(Begin(st), AlreadyInitialized)
    ensures st.log == [] ==> RecoverFromContextError(cfg, st) == Raise(Begin(st), ConversationNotInitialized)
  {
    hide AwaitAssistant, Opened, ForceFinalizeForContext;
  }
}
