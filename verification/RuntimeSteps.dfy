/** The other steps of the runtime: initialization, tool results, error recovery, and what each of them undoes. */
module RuntimeSteps {
  import opened Messages
  import opened Markers
  import opened Visibility
  import opened TrackedView
  import opened Stages
  import opened ContextBudget
  import opened ToolAnswers
  import opened RuntimeSpec
  import opened RuntimeLaws

  // ---------- Initialization ----------

  lemma FirstMessage(m: Message)
    requires m.role == System || m.role == User
    ensures
      var w := Append(Begin(FRESH), [m]);
      && w.error.None? && w.st == FRESH.(log := [m], view := EMPTY.(visible := [m]))
  {
  }

  lemma NothingReplayed()
    ensures FRESH.view.Wf() && Replay([], FRESH.log) == FRESH.view.visible
  {
  }

  /** The messages that open a conversation. */
  function Opening(cfg: Config, prompt: Text): seq<Message> {
    if cfg.systemPrompt.Some? && cfg.systemPrompt.value != ""
    then [SystemMessage(Plain(cfg.systemPrompt.value)), UserMessage(prompt)]
    else [UserMessage(prompt)]
  }

  /** A fresh runtime opens the conversation without raising, and reaches the invariant; it shows and logs the opening
      messages, and after them the force-final prompt if the end was forced. */
  lemma InitializeStep(cfg: Config, prompt: Text)
    requires cfg.Ok()
    ensures
      var r := Initialize(cfg, FRESH, prompt);
      r.error.None? && Inv(cfg, r.st) && r.st.turns == 0 && r.st.rollbacks == 0
      && Exchanges(r.st.view.visible) == 0 && (Awaiting(r.st.stage) || r.st.stage == ForceFinalAwaitAssistant)
      && r.st.view.visible == r.st.log
      && r.st.log == Opening(cfg, prompt) + (if Awaiting(r.st.stage) then [] else cfg.WarningMessages())
  {
    hide Opened, Inject, ContextCheckpoint, Exchanges, Replay, ViewReplay, EndsWithCalls;
    NothingReplayed();
    var start := Opened(cfg, FRESH, prompt);
    OpenedEffect(cfg, prompt);
    CheckpointSkipped(cfg, start);
    NoExchanges(start.st.view.visible);
    if TurnLimitReached(cfg, start.st) {
      InjectEffect(cfg, start, TurnLimit);
      ExchangesConcat(start.st.view.visible, cfg.WarningMessages());
      NoExchanges(cfg.WarningMessages());
    }
    TrackedVisible(Initialize(cfg, FRESH, prompt));
  }

  lemma OpenedEffect(cfg: Config, prompt: Text)
    ensures
      var r := Opened(cfg, FRESH, prompt);
      && r.error.None? && r.st.stage == InitialAwaitAssistant && SameCounters(r.st, FRESH)
      && r.st.log != [] && r.st.trigger.None? && r.st.log == r.st.view.visible == Opening(cfg, prompt)
      && (forall i :: 0 <= i < |r.st.view.visible| ==>
           r.st.view.visible[i].role != Assistant && r.st.view.visible[i].toolCallId.None?)
  {
    hide Append, ViewReplay, Replay;
    if cfg.systemPrompt.Some? && cfg.systemPrompt.value != "" {
      var m := SystemMessage(Plain(cfg.systemPrompt.value));
      FirstMessage(m);
      AppendPlain(Transit(Append(Begin(FRESH), [m]), SystemMessageSet), [UserMessage(prompt)]);
    } else {
      FirstMessage(UserMessage(prompt));
    }
  }

  lemma CheckpointSkipped(cfg: Config, w: Work)
    requires w.st.stage == InitialAwaitAssistant
    ensures ContextCheckpoint(cfg, w).None?
  {
  }

  // ---------- Tool results ----------

  /** The state once the tool messages are in the log. */
  predicate ResultsArrived(st: State, all: seq<Message>, w: Work) {
    && w.error.None?
    && w.st == st.(stage := ToolMessagesAwaitAssistant, pending := [], log := st.log + all,
                   view := st.view.(visible := st.view.visible + all))
  }

  lemma ToolWorkEffect(st: State, all: seq<Message>)
    requires st.log != [] && st.stage == ToolCallsAwaitTool && AllTool(all)
    ensures ResultsArrived(st, all, ToolWork(st, all))
  {
    AppendPlain(Begin(st).(st := st.(pending := [])), all);
  }

  /** What a batch of tool results leads to. */
  ghost predicate ResultsEffect(cfg: Config, st: State, all: seq<Message>, w: Work, r: State) {
    || Ended(cfg, w.st, r)
    || (r == w.st && !TurnLimitReached(cfg, r) && PassesCheckpoint(cfg, r))
  }

  lemma AfterToolResultsEffect(cfg: Config, st: State, all: seq<Message>, w: Work, exhausted: bool)
    requires st.log != [] && ResultsArrived(st, all, w)
    ensures
      var r := if exhausted then Inject(cfg, w, ToolsExhausted) else AfterToolResults(cfg, w);
      r.error.None? && ResultsEffect(cfg, st, all, w, r.st)
  {
    if exhausted {
      InjectEnds(cfg, w, ToolsExhausted);
    } else {
      GenerationCheckEffect(cfg, w, true);
      AwaitEffect(cfg, w, true);
    }
  }

  lemma ResolvedBatch(cfg: Config, pending: seq<ToolCall>, results: seq<Message>, rejected: set<string>)
    requires Answers(results, pending) && AllTool(results) && pending != []
    ensures
      var all := Resolve(cfg, pending, results, rejected);
      all.Some? && all.value != [] && AllTool(all.value)
  {
    AggregateRoles(results, rejected, cfg.joinNames);
  }

  /** A batch that answers the pending calls never raises and keeps the invariant; if the model is asked
      again, the conversation passed the context checkpoint. */
  lemma ToolResultsStep(cfg: Config, st: State, results: seq<Message>, exhausted: bool, rejected: set<string>)
    requires Inv(cfg, st) && st.stage == ToolCallsAwaitTool
    requires Answers(results, st.pending) && AllTool(results)
    ensures
      var r := ApplyToolResults(cfg, st, results, exhausted, rejected);
      var all := Resolve(cfg, st.pending, results, rejected).value;
      && r.error.None? && Inv(cfg, r.st)
      && AllTool(all) && ResultsArrived(st, all, ToolWork(st, all))
      && ResultsEffect(cfg, st, all, ToolWork(st, all), r.st)
  {
    hide GenerationCheck, AwaitAssistant, Inject, Aggregate, Replay, ViewReplay, ToolWork;
    ResolvedBatch(cfg, st.pending, results, rejected);
    var all := Resolve(cfg, st.pending, results, rejected).value;
    ToolWorkEffect(st, all);
    var w := ToolWork(st, all);
    AfterToolResultsEffect(cfg, st, all, w, exhausted);
    var r := ApplyToolResults(cfg, st, results, exhausted, rejected);
    assert r == if exhausted then Inject(cfg, w, ToolsExhausted) else AfterToolResults(cfg, w);
    TrackedVisible(r);
  }

  /** The tool results overflow the generation minimum: at once, or because the force-final prompt does not fit even
      after the exchange was taken back. */
  predicate StopsAfterResults(cfg: Config, w: Work) {
    var b := ForceFinalizationBudget(cfg, w.st.view);
    && cfg.preflight && cfg.minGeneration > 0
    && (b.hardStop || ((b.needsWarning || !b.warningFits) && !WarningFits(cfg, RollBackForContext(w, true).st.view)))
  }

  lemma StopExactly(cfg: Config, w: Work)
    requires w.error.None? && w.st.log != [] && w.st.stage == ToolMessagesAwaitAssistant
    ensures AfterToolResults(cfg, w).st.stage == TokenExceeded <==> StopsAfterResults(cfg, w)
  {
    hide RollBackForContext, Inject, WarningRemaining, PromptTokens;
    var w1 := RollBackForContext(w, true);
    RollBackForContextEffect(w, true);
    InjectEffect(cfg, w1, ContextLimit);
    InjectEffect(cfg, w, TurnLimit);
  }

  /** A batch of tool results ends the conversation exactly then, unless all tools are exhausted. */
  lemma ResultsStopExactly(cfg: Config, st: State, results: seq<Message>, exhausted: bool, rejected: set<string>)
    requires Inv(cfg, st) && st.stage == ToolCallsAwaitTool
    requires Answers(results, st.pending) && AllTool(results)
    ensures
      var all := Resolve(cfg, st.pending, results, rejected).value;
      ApplyToolResults(cfg, st, results, exhausted, rejected).st.stage == TokenExceeded
      <==> !exhausted && StopsAfterResults(cfg, ToolWork(st, all))
  {
    hide AfterToolResults, Inject, ToolWork, Replay, StopsAfterResults, Resolve;
    ResolvedBatch(cfg, st.pending, results, rejected);
    var all := Resolve(cfg, st.pending, results, rejected).value;
    ToolWorkEffect(st, all);
    if exhausted {
      InjectEffect(cfg, ToolWork(st, all), ToolsExhausted);
    } else {
      StopExactly(cfg, ToolWork(st, all));
    }
  }

  /** If the model is asked again after tool results, its prompt leaves the warning threshold free in the
      window, with and without the force-final prompt. */
  lemma CheckpointLeaves(cfg: Config, st: State, results: seq<Message>, exhausted: bool, rejected: set<string>)
    requires Inv(cfg, st) && st.stage == ToolCallsAwaitTool && cfg.preflight
    requires Answers(results, st.pending) && AllTool(results)
    ensures
      var r := ApplyToolResults(cfg, st, results, exhausted, rejected).st;
      r.stage == ToolMessagesAwaitAssistant ==>
        && Leaves(cfg, r.view, [], cfg.warningThreshold)
        && Leaves(cfg, r.view, cfg.WarningMessages(), cfg.warningThreshold)
        && (cfg.minGeneration > 0 ==> Leaves(cfg, r.view, [], cfg.minGeneration))
        && (cfg.EarlyStopPrompt().Some? ==> Leaves(cfg, r.view, cfg.WarningMessages(), 1))
  {
    hide ApplyToolResults, Replay, ForceFinalizationBudget, Leaves;
    ToolResultsStep(cfg, st, results, exhausted, rejected);
    BudgetMeaning(cfg, ApplyToolResults(cfg, st, results, exhausted, rejected).st.view);
  }

  /** A call message followed by its results: the context rollback reaches back exactly to the call. */
  lemma {:induction false} RollbackReachesTheCall(v: seq<Message>, m: Message, all: seq<Message>)
    requires m.role == Assistant && AllTool(all)
    ensures RollbackSize(v + [m] + all) == |all| + 1
  {
    var whole := v + [m] + all;
    if all == [] {
      assert whole == v + [m];
    } else {
      var n := |all| - 1;
      assert whole[..|whole| - 1] == v + [m] + all[..n];
      RollbackReachesTheCall(v, m, all[..n]);
    }
  }

  /** When the context limit forces the end right after tool results, the model is shown the prompt it had
      before it made the calls, plus the force-final prompt if one is configured. */
  lemma ContextRollbackRestoresPrompt(cfg: Config, before: seq<Message>, m: Message, all: seq<Message>, w: Work)
    requires w.error.None? && w.st.log != [] && w.st.stage == ToolMessagesAwaitAssistant
    requires m.role == Assistant && AllTool(all) && w.st.view.visible == before + [m] + all
    ensures
      var r := ForceFinalizeForContext(cfg, w, true);
      && r.error.None?
      && r.st.view.visible == before + (if r.st.stage == ForceFinalAwaitAssistant then cfg.WarningMessages() else [])
  {
    RollbackReachesTheCall(before, m, all);
    ForceFinalizeEffect(cfg, w, true);
    assert (before + [m] + all)[..|before|] == before;
  }

  lemma CheckpointTrigger(cfg: Config, before: seq<Message>, m: Message, all: seq<Message>, w: Work)
    requires w.error.None? && w.st.log != [] && w.st.stage == ToolMessagesAwaitAssistant && w.st.trigger.None?
    requires m.role == Assistant && AllTool(all) && w.st.view.visible == before + [m] + all
    ensures
      var r := AfterToolResults(cfg, w).st;
      r.stage == ForceFinalAwaitAssistant && r.trigger == Some(ContextLimit) ==>
        r.view.visible == before + cfg.WarningMessages()
  {
    hide ForceFinalizeForContext, GenerationBudget, ForceFinalizationBudget;
    ContextRollbackRestoresPrompt(cfg, before, m, all, w);
    if TurnLimitReached(cfg, w.st) {
      InjectEffect(cfg, w, TurnLimit);
    }
  }

  /** Tool results that overflow the context are taken back together with their calls: the model is forced to
      finish from the very prompt it had before it made them. */
  lemma OverflowingExchangeIsUndone(cfg: Config, st: State, m: Message, called: State, results: seq<Message>,
                                    rejected: set<string>)
    requires Inv(cfg, st) && Awaiting(st.stage) && m.role == Assistant
    requires CallsPending(st, m, called) && Inv(cfg, called)
    requires Answers(results, called.pending) && AllTool(results)
    ensures
      var r := ApplyToolResults(cfg, called, results, false, rejected).st;
      r.stage == ForceFinalAwaitAssistant && r.trigger == Some(ContextLimit) ==>
        r.view.visible == st.view.visible + cfg.WarningMessages()
  {
    hide AfterToolResults, Resolve, Replay;
    ToolResultsStep(cfg, called, results, false, rejected);
    var all := Resolve(cfg, called.pending, results, rejected).value;
    ResolvedBatch(cfg, called.pending, results, rejected);
    CheckpointTrigger(cfg, st.view.visible, m, all, ToolWork(called, all));
  }

  // ---------- One call and its result ----------

  function CallOf(name: string): ToolCall {
    ToolCall("call", name, map[])
  }

  function CallingMessage(name: string): Message {
    Message(Assistant, None, None, None, Some([CallOf(name)]), None, None)
  }

  /** A lone result that answers the call passes the id check, and merging leaves it alone. */
  lemma OneResult(cfg: Config, result: Message, name: string, rejected: set<string>)
    requires result.role == Tool && result.toolCallId == Some("call")
    ensures Answers([result], [CallOf(name)]) && AllTool([result])
    ensures Resolve(cfg, [CallOf(name)], [result], rejected) == Some([result])
  {
    OneResultFits(result, name);
    hide Answers;
    var ms := [result];
    assert ms[..0] == [] && ms == [] + [result];
    assert Passed(ms[..0], rejected) == [] && RejectedContents(ms[..0], rejected) == [];
    assert Group(ms[..0], rejected, ms[0].content) == [];
    if IsRejected(ms[0], rejected) {
      assert Passed(ms, rejected) == [] && RejectedContents(ms, rejected) == [ms[0].content];
      assert Group(ms, rejected, ms[0].content) == [ms[0]];
    } else {
      assert Passed(ms, rejected) == ms && RejectedContents(ms, rejected) == [];
    }
    assert Aggregate(ms, rejected, cfg.joinNames) == ms;
  }

  lemma OneResultFits(result: Message, name: string)
    requires result.toolCallId == Some("call")
    ensures Answers([result], [CallOf(name)])
  {
    var ms := [result];
    assert [CallOf(name)][0].id == "call" && ms[0].toolCallId == Some("call");
    assert "call" in CallIds([CallOf(name)]) && "call" in AnsweredIds(ms);
    assert forall id :: id in CallIds([CallOf(name)]) ==> id == "call";
    assert forall id :: id in AnsweredIds(ms) ==> id == "call";
  }

  /** Where nothing can stop it, a call takes a turn at any stage that calls the model. */
  lemma CallGoesThrough(cfg: Config, st: State, name: string)
    requires st.log != [] && ActionOf(st.stage) == Some(CallModel) && !cfg.MayStop()
    ensures
      var m := CallingMessage(name);
      var w := ApplyAssistant(cfg, st, m, false);
      && w.error.None? && w.st.turns == st.turns + 1
      && (Awaiting(st.stage) ==> CallsPending(st, m, w.st))
  {
    hide Receive, GenerationCheck, ViewReplay;
    var m := CallingMessage(name);
    ReceiveEffect(st, m);
    GenerationCheckEffect(cfg, Receive(st, m), false);
  }

  /** Where nothing can stop it, the result of that call leads back to the model, and takes no turn. */
  lemma ResultGoesThrough(cfg: Config, st: State, name: string, result: Message)
    requires st.log != [] && st.stage == ToolCallsAwaitTool && st.pending == [CallOf(name)] && !cfg.MayStop()
    requires result.role == Tool && result.toolCallId == Some("call")
    ensures
      var w := ApplyToolResults(cfg, st, [result], false, {});
      && w.error.None? && w.st.turns == st.turns && w.st.log != []
      && ActionOf(w.st.stage) == Some(CallModel)
  {
    hide ToolWork, AfterToolResults, Resolve, Answers;
    OneResult(cfg, result, name, {});
    ToolWorkEffect(st, [result]);
    AfterToolResultsEffect(cfg, st, [result], ToolWork(st, [result]), false);
  }

  // ---------- Discarding tool calls ----------

  lemma DiscardDeclines(cfg: Config, st: State, reason: string)
    ensures RollBackToolCalls(cfg, st, reason).Some? <==> MayRollBack(cfg, st)
  {
  }

  lemma DiscardEffect(cfg: Config, st: State, reason: string)
    requires st.log != [] && st.stage == ToolCallsAwaitTool && MayRollBack(cfg, st)
    ensures RollBackToolCalls(cfg, st, reason).Some?
    ensures
      var r := RollBackToolCalls(cfg, st, reason).value;
      && r.error.None? && r.st.log != []
      && r.st == UndoTurn(st).(pending := [], stage := ToolMessagesAwaitAssistant, log := r.st.log,
                               view := Hidden(st.view, 1))
  {
    hide BuildRollback, ViewReplay, Hidden, Append;
    AppendRollback(Begin(st).(st := UndoTurn(st).(pending := [])), 1, reason);
  }

  lemma DiscardKeeps(cfg: Config, st: State, reason: string)
    requires Inv(cfg, st) && st.stage == ToolCallsAwaitTool && MayRollBack(cfg, st)
    ensures RollBackToolCalls(cfg, st, reason).Some?
    ensures
      var r := RollBackToolCalls(cfg, st, reason).value;
      r.error.None? && Inv(cfg, r.st)
  {
    hide RollBackToolCalls, Replay, ViewReplay;
    DiscardEffect(cfg, st, reason);
    TrackedVisible(RollBackToolCalls(cfg, st, reason).value);
  }

  /** Discarding the pending calls is an undo of the answer that made them: the model sees the prompt it had
      before, the turn is given back, and nothing is pending; it happens unless the rollback budget is spent. */
  lemma DiscardedCallsAreUndone(cfg: Config, st: State, m: Message, called: State, reason: string)
    requires Inv(cfg, st) && Awaiting(st.stage) && m.role == Assistant
    requires CallsPending(st, m, called) && Inv(cfg, called)
    ensures RollBackToolCalls(cfg, called, reason).None? <==> st.rollbacks >= cfg.maxRollbacks
    ensures
      RollBackToolCalls(cfg, called, reason).Some? ==>
        var r := RollBackToolCalls(cfg, called, reason).value;
        && r.error.None? && Inv(cfg, r.st)
        && r.st == st.(log := r.st.log, rollbacks := st.rollbacks + 1, stage := ToolMessagesAwaitAssistant)
  {
    hide Hidden, Replay, Tracks, EndsWithCalls, RollBackToolCalls;
    DiscardDeclines(cfg, called, reason);
    if MayRollBack(cfg, called) {
      HideAnswer(st.view, m);
      DiscardEffect(cfg, called, reason);
      DiscardKeeps(cfg, called, reason);
    }
  }

  // ---------- Recovery from a context-length error ----------

  /** No way out of a context error: a generation minimum is set, the force-final prompt does not fit, and the
      stage can neither roll back nor stop. */
  predicate RecoveryRaises(cfg: Config, st: State) {
    && st.stage in {InitialAwaitAssistant, FinalPromptAwaitAssistant, FormatErrorAwaitAssistant}
    && cfg.minGeneration > 0 && cfg.preflight && !WarningFits(cfg, st.view)
  }

  lemma RecoveryNeedsMinimum(cfg: Config, st: State)
    requires RecoveryRaises(cfg, st)
    ensures cfg.MayStop()
  {
  }

  /** Recovery after the provider refused the prompt raises in exactly one situation: a generation minimum is
      set, the force-final prompt does not fit, and the stage can neither roll back nor stop. Otherwise the
      invariant is kept; at the force-final stage nothing changes, elsewhere the conversation ends. */
  lemma ContextErrorStep(cfg: Config, st: State)
    requires Inv(cfg, st) && ActionOf(st.stage) == Some(CallModel)
    ensures
      var r := RecoverFromContextError(cfg, st);
      && (r.error.Some? <==> RecoveryRaises(cfg, st))
      && r.st.turns == st.turns
      && (r.error.None? ==>
           Inv(cfg, r.st) && (if st.stage == ForceFinalAwaitAssistant then r == Begin(st) else Ended(cfg, st, r.st)))
      && (r.error.None? && st.stage != ForceFinalAwaitAssistant ==>
           r.st.view.visible == KeptForContext(st, true)
             + (if r.st.stage == ForceFinalAwaitAssistant then cfg.WarningMessages() else []))
  {
    hide ForceFinalizeForContext, Replay, RollbackSize, WarningFits;
    var w := Begin(st);
    var r := RecoverFromContextError(cfg, st);
    if st.stage != ForceFinalAwaitAssistant {
      ForceFinalizeEffect(cfg, w, true);
      if !Stuck(cfg, st, true) {
        ForcedEnds(cfg, w, true);
        EndedInv(cfg, r, st);
      }
    }
  }

  // ---------- Recovery from empty responses ----------

  /** The tail of `v` is one message with tool calls, the results that follow it, and the force-final prompt if it
      is shown. */
  ghost predicate LatestExchangeIs(cfg: Config, v: seq<Message>, kept: seq<Message>, call: Message,
                                   results: seq<Message>, prompt: seq<Message>) {
    && v == kept + [call] + results + prompt
    && MakesCalls(call)
    && results != [] && (forall i :: 0 <= i < |results| ==> IsToolResult(results[i]))
    && (prompt == [] || (|prompt| == 1 && prompt[0].role == User && cfg.EarlyStopPrompt().Some?
                          && prompt[0].content == Some(Plain(cfg.EarlyStopPrompt().value))))
  }

  lemma {:induction false} TrailingResultsMeaning(v: seq<Message>)
    ensures
      var n := TrailingResults(v);
      && (forall i :: |v| - n <= i < |v| ==> IsToolResult(v[i]))
      && (n < |v| ==> !IsToolResult(v[|v| - n - 1]))
  {
    if v != [] && IsToolResult(v[|v| - 1]) {
      TrailingResultsMeaning(v[..|v| - 1]);
    }
  }

  /** What the recovery removes is exactly one exchange, with a trailing force-final prompt at most. */
  lemma LatestExchangeMeaning(cfg: Config, v: seq<Message>)
    requires LatestExchange(cfg, v) > 0
    ensures
      var n := LatestExchange(cfg, v);
      var p := TrailingPrompt(cfg, v);
      && n >= 2 + p
      && LatestExchangeIs(cfg, v, v[..|v| - n], v[|v| - n], v[|v| - n + 1..|v| - p], v[|v| - p..])
  {
    var n := LatestExchange(cfg, v);
    var p := TrailingPrompt(cfg, v);
    var w := v[..|v| - p];
    TrailingResultsMeaning(w);
    var results := v[|v| - n + 1..|v| - p];
    forall i | 0 <= i < |results| ensures IsToolResult(results[i]) {
      assert results[i] == w[|v| - n + 1 + i];
    }
    assert v == v[..|v| - n] + [v[|v| - n]] + results + v[|v| - p..];
  }

  lemma {:induction false} LatestExchangeHidden(cfg: Config, v: seq<Message>)
    requires LatestExchange(cfg, v) > 0
    ensures DropTail(v, LatestExchange(cfg, v)) == v[..|v| - LatestExchange(cfg, v)]
    ensures Exchanges(v[..|v| - LatestExchange(cfg, v)]) < Exchanges(v)
  {
    var n := LatestExchange(cfg, v);
    var p := TrailingPrompt(cfg, v);
    LatestExchangeMeaning(cfg, v);
    forall i | |v| - n <= i < |v| ensures v[i].role != System {
      if |v| - n < i < |v| - p {
        assert IsToolResult(v[|v| - n + 1..|v| - p][i - (|v| - n + 1)]);
      } else if i >= |v| - p {
        assert v[|v| - p..][i - (|v| - p)].role == User;
      }
    }
    HideExactly(v, n);
    var kept, call := v[..|v| - n], v[|v| - n];
    assert v == kept + [call] + v[|v| - n + 1..];
    ExchangesConcat(kept + [call], v[|v| - n + 1..]);
    ExchangesConcat(kept, [call]);
    OneExchange(call);
  }

  /** The recovery is possible exactly when there is an exchange to hide and the stage may roll back; it then
      leaves a strictly shorter conversation, with one exchange less, at the force-final stage. */
  lemma EmptyResponseStep(cfg: Config, st: State, reason: string, trigger: Trigger)
    requires Inv(cfg, st) && ActionOf(st.stage) == Some(CallModel)
    ensures
      var r := RollBackLatestExchange(cfg, st, reason, trigger);
      var v := st.view.visible;
      var n := LatestExchange(cfg, v);
      && (r.Some? <==> n > 0 && st.stage in {ToolMessagesAwaitAssistant, ForceFinalAwaitAssistant})
      && (r.Some? ==>
           && r.value.error.None? && Inv(cfg, r.value.st)
           && r.value.st.stage == ForceFinalAwaitAssistant && r.value.st.trigger == Some(trigger)
           && SameCounters(r.value.st, st)
           && r.value.st.view.visible == v[..|v| - n] + cfg.WarningMessages()
           && |r.value.st.view.visible| < |v|
           && Exchanges(r.value.st.view.visible) < Exchanges(v))
  {
    hide LatestExchange, Append, Inject, Replay, Exchanges;
    var r := RollBackLatestExchange(cfg, st, reason, trigger);
    if r.Some? {
      RecoveryEffect(cfg, st, LatestExchange(cfg, st.view.visible), reason, trigger);
      TrackedVisible(r.value);
    }
  }

  lemma RecoveryEffect(cfg: Config, st: State, n: nat, reason: string, trigger: Trigger)
    requires st.log != [] && ContextLimitRollback in Next(st.stage)
    requires n == LatestExchange(cfg, st.view.visible) > 0
    ensures
      var r := Inject(cfg, Transit(Append(Begin(st), [BuildRollback(n, reason)]), ContextLimitRollback), trigger);
      var v := st.view.visible;
      && r.error.None? && r.st.stage == ForceFinalAwaitAssistant && r.st.trigger == Some(trigger)
      && r.st.hasPrompt == cfg.EarlyStopPrompt().Some? && SameCounters(r.st, st) && r.st.log != []
      && r.st.view.visible == v[..|v| - n] + cfg.WarningMessages()
      && |r.st.view.visible| < |v| && Exchanges(r.st.view.visible) < Exchanges(v)
  {
    hide LatestExchange, Append, Inject, Replay, ViewReplay, Exchanges, BuildRollback, DropTail;
    var v := st.view.visible;
    LatestExchangeMeaning(cfg, v);
    LatestExchangeHidden(cfg, v);
    AppendRollback(Begin(st), n, reason);
    InjectEffect(cfg, Transit(Append(Begin(st), [BuildRollback(n, reason)]), ContextLimitRollback), trigger);
    ExchangesConcat(v[..|v| - n], cfg.WarningMessages());
    NoExchanges(cfg.WarningMessages());
  }

  // ---------- Results ----------

  /** A step that keeps the invariant reports a stage with an action. */
  lemma InvReports(cfg: Config, w: Work, flag: bool)
    requires Inv(cfg, w.st) && w.error.None?
    ensures Result(w, flag).Ok?
  {
  }
}
