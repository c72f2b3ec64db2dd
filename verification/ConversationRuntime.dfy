/** The conversation runtime as an object: an append-only log, a stage, counters and the context tracker,
    updated in place and proved against `RuntimeSpec`. */
module Runtime {
  import opened Messages
  import opened Markers
  import opened Visibility
  import opened TrackedView
  import opened ContextTracking
  import opened Stages
  import opened ContextBudget
  import opened ToolAnswers
  import opened RuntimeSpec

  /** What a step has gathered so far. A raised exception travels along; nothing happens after it. */
  datatype Draft = Draft(path: seq<Stage>, appended: seq<Message>, error: Option<Error>)

  class ConversationRuntime {
    const cfg: Config
    var stage: Stage
    var log: seq<Message>
    var turns: nat
    var pending: seq<ToolCall>
    var rollbacks: nat
    var trigger: Option<Trigger>
    var hasPrompt: bool
    const tracker: ContextLengthTracker

    ghost predicate Valid()
      reads this, tracker
    {
      && tracker.Valid()
      && tracker.estimator == cfg.TrackerEstimator()
      && cfg.Ok()
    }

    ghost function Value(): State
      reads this, tracker
    {
      State(stage, log, turns, pending, rollbacks, trigger, hasPrompt, tracker.Value())
    }

    ghost function Doing(base: State, d: Draft): Work
      reads this, tracker
    {
      Work(base, Value(), d.path, d.appended, d.error)
    }

    constructor (cfg: Config)
      requires cfg.Ok()
      ensures Valid() && fresh(tracker) && this.cfg == cfg && Value() == FRESH
    {
      this.cfg := cfg;
      stage := NotInitialized;
      log, turns, pending, rollbacks, trigger, hasPrompt := [], 0, [], 0, None, false;
      var t := new ContextLengthTracker(cfg.TrackerEstimator());
      tracker := t;
    }

    constructor FromParts(cfg: Config, stage: Stage, log: seq<Message>, turns: nat, pending: seq<ToolCall>,
                          rollbacks: nat, trigger: Option<Trigger>, hasPrompt: bool, tracker: ContextLengthTracker)
      requires cfg.Ok() && tracker.Valid() && tracker.estimator == cfg.TrackerEstimator()
      ensures Valid() && this.cfg == cfg && this.tracker == tracker
      ensures Value() == State(stage, log, turns, pending, rollbacks, trigger, hasPrompt, tracker.Value())
    {
      this.cfg := cfg;
      this.stage := stage;
      this.log, this.turns, this.pending, this.rollbacks := log, turns, pending, rollbacks;
      this.trigger, this.hasPrompt := trigger, hasPrompt;
      this.tracker := tracker;
    }

    /** An independent copy: it shares no mutable object with the original. */
    method Clone() returns (cloned: ConversationRuntime)
      requires Valid()
      ensures cloned.Valid() && fresh(cloned) && fresh(cloned.tracker)
      ensures cloned.cfg == cfg && cloned.Value() == Value()
    {
      var t := tracker.Clone(cfg.TrackerEstimator());
      cloned := new ConversationRuntime.FromParts(cfg, stage, log, turns, pending, rollbacks, trigger, hasPrompt, t);
    }

    method Reset()
      requires Valid()
      modifies this, tracker
      ensures Valid() && Value() == FRESH
    {
      log, turns, pending, rollbacks, trigger, hasPrompt := [], 0, [], 0, None, false;
      stage := NotInitialized;
      tracker.Reset();
    }

    // ---------- The log and the visible context ----------

    /** Replay messages into the tracker, batching plain ones between markers. */
    method ApplyToVisibleContext(messages: seq<Message>)
      requires Valid()
      modifies tracker
      ensures Valid()
      ensures tracker.Value() == ViewReplay(old(tracker.Value()), messages)
    {
      ghost var before := tracker.Value();
      var batch: seq<Message> := [];
      for i := 0 to |messages|
        invariant Valid()
        invariant forall j :: 0 <= j < |batch| ==> batch[j].role != Runtime
        invariant ViewReplay(tracker.Value(), batch) == ViewReplay(before, messages[..i])
      {
        var message := messages[i];
        assert messages[..i + 1][..i] == messages[..i];
        if message.role == Runtime {
          FlushBatch(batch);
          batch := [];
          ApplyMarker(message);
        } else {
          assert (batch + [message])[..|batch|] == batch;
          batch := batch + [message];
        }
      }
      assert messages[..|messages|] == messages;
      FlushBatch(batch);
    }

    method FlushBatch(batch: seq<Message>)
      requires Valid() && forall j :: 0 <= j < |batch| ==> batch[j].role != Runtime
      modifies tracker
      ensures Valid()
      ensures tracker.Value() == ViewReplay(old(tracker.Value()), batch)
    {
      ViewReplayPlain(tracker.Value(), batch);
      if batch == [] {
        return;
      }
      tracker.AppendMany(batch);
    }

    /** Carry out one runtime marker. */
    method ApplyMarker(message: Message)
      requires Valid() && message.role == Runtime
      modifies tracker
      ensures Valid()
      ensures tracker.Value() == ViewApply(old(tracker.Value()), message)
    {
      var count := ParseRollback(message);
      if count > 0 {
        var _ := tracker.RollbackLast(count, true);
        return;
      }
      var compaction := ParseCompaction(message);
      if compaction.Some? {
        var visible := tracker.VisibleMessages();
        var rebuilt := SpliceCompaction(visible, compaction.value);
        if rebuilt.Some? {
          tracker.ReplaceVisible(rebuilt.value);
        }
        return;
      }
      var discard := ParseDiscardAll(message);
      if discard.Some? {
        var visible := tracker.VisibleMessages();
        var rebuilt := SpliceDiscardAll(visible, discard.value);
        if rebuilt.Some? {
          tracker.ReplaceVisible(rebuilt.value);
        }
      }
    }

    /** Recompute the tracker from the log: it then shows the reference replay of the whole log. */
    method RebuildVisibleContext()
      requires Valid()
      modifies tracker
      ensures Valid()
      ensures tracker.Value() == ViewReplay(EMPTY, log) && tracker.Value().visible == Replay([], log)
    {
      ViewReplayVisible(EMPTY, log);
      tracker.Reset();
      ApplyToVisibleContext(log);
    }

    /** The checks of `_validate_append_messages`, message by message. */
    method ValidateAppend(messages: seq<Message>) returns (error: Option<Error>)
      ensures error == AppendError(log, messages)
    {
      var hasMessages := log != [];
      for i := 0 to |messages|
        invariant hasMessages <==> log != [] || i > 0
        invariant i > 0 ==> (if log == [] then messages[0].role == System || messages[0].role == User
                             else messages[0].role != System)
        invariant forall j :: 1 <= j < i ==> messages[j].role != System
      {
        if !hasMessages && messages[i].role != System && messages[i].role != User {
          return Some(BadFirstMessage);
        }
        if messages[i].role == System && hasMessages {
          return Some(LateSystemMessage);
        }
        hasMessages := true;
      }
      return None;
    }

    method AppendMessages(ghost base: State, d: Draft, messages: seq<Message>) returns (r: Draft)
      requires Valid()
      modifies this, tracker
      ensures Valid()
      ensures Doing(base, r) == Append(old(Doing(base, d)), messages)
    {
      hide AppendError, ViewReplay;
      if d.error.Some? {
        return d;
      }
      var error := ValidateAppend(messages);
      if error.Some? {
        return d.(error := error);
      }
      log := log + messages;
      ApplyToVisibleContext(messages);
      return d.(appended := d.appended + messages);
    }

    method TransitStage(ghost base: State, d: Draft, next: Stage) returns (r: Draft)
      requires Valid()
      modifies this`stage
      ensures Valid() && Doing(base, r) == Transit(old(Doing(base, d)), next)
    {
      if d.error.Some? {
        return d;
      }
      if next !in Next(stage) {
        return d.(error := Some(BadTransition));
      }
      stage := next;
      return d.(path := d.path + [next]);
    }

    /** Append messages, then move on. */
    method AppendAndMove(ghost base: State, d: Draft, messages: seq<Message>, next: Stage) returns (r: Draft)
      requires Valid()
      modifies this, tracker
      ensures Valid()
      ensures Doing(base, r) == Transit(Append(old(Doing(base, d)), messages), next)
    {
      hide Append, Transit;
      r := AppendMessages(base, d, messages);
      r := TransitStage(base, r, next);
    }

    /** Hide the last visible message and go back to waiting for the assistant. */
    method HideLastMessage(ghost base: State, d: Draft, reason: string, target: Stage) returns (r: Draft)
      requires Valid()
      modifies this, tracker
      ensures Valid()
      ensures Doing(base, r)
           == Transit(Transit(Append(old(Doing(base, d)), [BuildRollback(1, reason)]), AssistantRollback), target)
    {
      hide Append, Transit, BuildRollback;
      r := AppendAndMove(base, d, [BuildRollback(1, reason)], AssistantRollback);
      r := TransitStage(base, r, target);
    }

    // ---------- Token estimates ----------

    method EstimatePromptTokens(additional: seq<Message>) returns (tokens: int)
      requires Valid()
      ensures tokens == PromptTokens(cfg, tracker.Value(), additional)
    {
      var visible := tracker.VisibleMessages();
      var more := additional + cfg.Probe();
      if cfg.Incremental() {
        var same := tracker.Matches(visible);
        if same {
          return tracker.EstimateWith(more);
        }
      }
      return cfg.estimator(visible + more);
    }

    method EstimateGenerationBudget() returns (b: Budget)
      requires Valid()
      ensures b == GenerationBudget(cfg, tracker.Value())
    {
      if cfg.window.None? {
        return Budget(false, false, true);
      }
      var tokens := EstimatePromptTokens([]);
      var remaining := cfg.window.value - tokens - cfg.safetyMargin;
      var hardStop := cfg.minGeneration > 0 && remaining < cfg.minGeneration;
      return Budget(hardStop, !hardStop && remaining < cfg.warningThreshold, true);
    }

    method EstimateWarningRemaining() returns (remaining: Option<int>)
      requires Valid()
      ensures remaining == WarningRemaining(cfg, tracker.Value())
    {
      if cfg.window.None? || cfg.EarlyStopPrompt().None? {
        return None;
      }
      var tokens := EstimatePromptTokens([UserMessage(Plain(cfg.EarlyStopPrompt().value))]);
      return Some(cfg.window.value - tokens - cfg.safetyMargin);
    }

    method EstimateForceFinalizationBudget() returns (b: Budget)
      requires Valid()
      ensures b == ForceFinalizationBudget(cfg, tracker.Value())
    {
      b := EstimateGenerationBudget();
      var remaining := EstimateWarningRemaining();
      b := b.(warningFits := remaining.None? || remaining.value > 0);
      if remaining.Some? && remaining.value < cfg.warningThreshold {
        b := b.(needsWarning := true);
      }
    }

    // ---------- Forced finalization ----------

    method InjectForceFinalization(ghost base: State, d: Draft, why: Trigger) returns (r: Draft)
      requires Valid()
      modifies this, tracker
      ensures Valid()
      ensures Doing(base, r) == Inject(cfg, old(Doing(base, d)), why)
    {
      hide Append, Transit;
      if d.error.Some? {
        return d;
      }
      r := AppendMessages(base, d, cfg.WarningMessages());
      if r.error.Some? {
        return r;
      }
      trigger := Some(why);
      hasPrompt := cfg.EarlyStopPrompt().Some?;
      r := TransitStage(base, r, ForceFinalAwaitAssistant);
    }

    method ComputeRollbackCount(visible: seq<Message>) returns (count: nat)
      ensures count == RollbackSize(visible)
    {
      count := 0;
      assert visible[..|visible|] == visible;
      while count < |visible|
        invariant count <= |visible|
        invariant RollbackSize(visible) == count + RollbackSize(visible[..|visible| - count])
        decreases |visible| - count
      {
        ghost var rest := visible[..|visible| - count];
        var message := visible[|visible| - 1 - count];
        assert rest[|rest| - 1] == message && rest[..|rest| - 1] == visible[..|visible| - count - 1];
        if message.role == System {
          return;
        }
        count := count + 1;
        if message.role == Assistant {
          return;
        }
      }
    }

    method RollBackContext(ghost base: State, d: Draft, rollback: bool) returns (r: Draft)
      requires Valid()
      modifies this, tracker
      ensures Valid()
      ensures Doing(base, r) == RollBackForContext(old(Doing(base, d)), rollback)
    {
      hide Append, Transit, RollbackSize, BuildRollback;
      if d.error.Some? {
        return d;
      }
      var count := 0;
      if rollback && ContextLimitRollback in Next(stage) {
        var visible := tracker.VisibleMessages();
        count := ComputeRollbackCount(visible);
      }
      if count == 0 {
        return d;
      }
      r := AppendAndMove(base, d, [BuildRollback(count, ReasonText(ContextLimit))], ContextLimitRollback);
    }

    method ForceFinalizeDueToContextLimit(ghost base: State, d: Draft, rollback: bool) returns (r: Draft)
      requires Valid()
      modifies this, tracker
      ensures Valid()
      ensures Doing(base, r) == ForceFinalizeForContext(cfg, old(Doing(base, d)), rollback)
    {
      hide RollBackForContext, Inject, Transit, WarningRemaining;
      if d.error.Some? {
        return d;
      }
      r := RollBackContext(base, d, rollback);
      if r.error.Some? {
        return r;
      }
      var fits := true;
      if cfg.preflight {
        var remaining := EstimateWarningRemaining();
        fits := remaining.None? || remaining.value > 0;
      }
      if cfg.minGeneration > 0 && !fits {
        r := TransitStage(base, r, TokenExceeded);
      } else {
        r := InjectForceFinalization(base, r, ContextLimit);
      }
    }

    // ---------- Limit enforcement ----------

    method MaybeForceDueToContextLimit(ghost base: State, d: Draft) returns (r: Option<Draft>)
      requires Valid() && d.error.None?
      modifies this, tracker
      ensures Valid()
      ensures
        var c := ContextCheckpoint(cfg, old(Doing(base, d)));
        if r.Some? then c == Some(Doing(base, r.value)) else c.None? && Value() == old(Value())
    {
      hide ForceFinalizeForContext, Transit, ForceFinalizationBudget;
      if !cfg.preflight || stage !in CHECKPOINTS {
        return None;
      }
      var b := EstimateForceFinalizationBudget();
      if b.hardStop {
        var s := TransitStage(base, d, TokenExceeded);
        return Some(s);
      }
      if !b.needsWarning && b.warningFits {
        return None;
      }
      var s := ForceFinalizeDueToContextLimit(base, d, true);
      return Some(s);
    }

    method HandleWaitForAssistant(ghost base: State, d: Draft, checkContext: bool) returns (r: Draft)
      requires Valid()
      modifies this, tracker
      ensures Valid()
      ensures Doing(base, r) == AwaitAssistant(cfg, old(Doing(base, d)), checkContext)
    {
      hide ContextCheckpoint, Inject;
      if d.error.Some? {
        return d;
      }
      if checkContext {
        var checked := MaybeForceDueToContextLimit(base, d);
        if checked.Some? {
          return checked.value;
        }
      }
      if cfg.maxTurns.Some? && turns + 1 == cfg.maxTurns.value {
        r := InjectForceFinalization(base, d, TurnLimit);
      } else {
        r := d;
      }
    }

    method MaybeStopOrWarn(ghost base: State, d: Draft, stageOk: bool, rollback: bool) returns (r: Option<Draft>)
      requires Valid() && d.error.None?
      modifies this, tracker
      ensures Valid()
      ensures
        var c := GenerationCheck(cfg, old(Doing(base, d)), stageOk, rollback);
        if r.Some? then c == Some(Doing(base, r.value)) else c.None? && Value() == old(Value())
    {
      hide ForceFinalizeForContext, Transit, GenerationBudget;
      if !cfg.preflight || cfg.minGeneration == 0 || !stageOk {
        return None;
      }
      var b := EstimateGenerationBudget();
      if b.hardStop {
        var s := TransitStage(base, d, TokenExceeded);
        return Some(s);
      }
      if b.needsWarning {
        var s := ForceFinalizeDueToContextLimit(base, d, rollback);
        return Some(s);
      }
      return None;
    }

    // ---------- Assistant messages ----------

    /** Count a rollback, and do not count the turn that it hides. */
    method TakeBackTurn()
      modifies this`rollbacks, this`turns
      ensures Value() == UndoTurn(old(Value()))
    {
      rollbacks := rollbacks + 1;
      if turns > 0 {
        turns := turns - 1;
      }
    }

    method DoAssistantMessageRollback(ghost base: State, d: Draft, prior: Stage, reason: string) returns (r: Draft)
      requires Valid()
      modifies this, tracker
      ensures Valid()
      ensures Doing(base, r) == RollBackAssistant(old(Doing(base, d)), prior, reason)
    {
      hide Append, Transit, BuildRollback, ContextLengthTracker.Valid, Config.Ok;
      if d.error.Some? {
        return d;
      }
      TakeBackTurn();
      r := HideLastMessage(base, d, reason, RollbackTarget(prior));
    }

    method HandleForceFinalizationResponse(ghost base: State, d: Draft, message: Message) returns (r: Draft)
      requires Valid()
      modifies this`stage
      ensures Valid() && Doing(base, r) == HandleForceFinal(old(Doing(base, d)), message)
    {
      if message.HasToolCalls() {
        r := TransitStage(base, d, ToolCallsRejected);
      } else {
        r := TransitStage(base, d, if hasPrompt then ForceCompleted else Completed);
      }
    }

    method HandleAssistantToolCalls(ghost base: State, d: Draft, message: Message) returns (r: Draft)
      requires Valid() && message.HasToolCalls()
      modifies this`stage, this`pending
      ensures Valid() && Doing(base, r) == HandleToolCalls(old(Doing(base, d)), message)
    {
      if d.error.Some? {
        return d;
      }
      pending := message.toolCalls.value;
      r := TransitStage(base, d, ToolCallsAwaitTool);
    }

    method PromptModel(ghost base: State, d: Draft, prompt: Text, next: Stage) returns (r: Draft)
      requires Valid()
      modifies this, tracker
      ensures Valid()
      ensures Doing(base, r) == Prompt(cfg, old(Doing(base, d)), prompt, next)
    {
      hide Append, Transit, AwaitAssistant;
      r := AppendAndMove(base, d, [UserMessage(prompt)], next);
      r := HandleWaitForAssistant(base, r, false);
    }

    method AcceptAnswer(ghost base: State, d: Draft, prior: Stage) returns (r: Draft)
      requires Valid()
      modifies this, tracker
      ensures Valid()
      ensures Doing(base, r) == Accept(cfg, old(Doing(base, d)), prior)
    {
      hide Transit, Prompt, ContextLengthTracker.Valid, Config.Ok;
      if d.error.None? {
        rollbacks := 0;
      }
      if prior == FinalPromptAwaitAssistant || cfg.finalPrompt.None? {
        r := TransitStage(base, d, Completed);
      } else if cfg.finalPrompt.value == "" {
        r := if d.error.Some? then d else d.(error := Some(EmptyFinalPrompt));
      } else {
        r := PromptModel(base, d, Plain(cfg.finalPrompt.value), FinalPromptAwaitAssistant);
      }
    }

    method HandleTextAnswer(ghost base: State, d: Draft, prior: Stage, message: Message) returns (r: Draft)
      requires Valid()
      modifies this, tracker
      ensures Valid()
      ensures Doing(base, r) == HandleText(cfg, old(Doing(base, d)), prior, message)
    {
      hide Accept, Prompt, RollBackAssistant, Refused, Misformatted, ContextLengthTracker.Valid, Config.Ok;
      if prior == FinalPromptAwaitAssistant {
        r := AcceptAnswer(base, d, prior);
      } else if rollbacks < cfg.maxRollbacks && Refused(cfg, message) {
        r := DoAssistantMessageRollback(base, d, prior, "assistant_refusal");
      } else if cfg.strategy == FormatErrorStrategy.Ignore || !Misformatted(cfg, message) {
        r := AcceptAnswer(base, d, prior);
      } else if cfg.strategy == FormatErrorStrategy.Reprompt {
        r := PromptModel(base, d, cfg.reprompt, FormatErrorAwaitAssistant);
      } else if rollbacks < cfg.maxRollbacks {
        r := DoAssistantMessageRollback(base, d, prior, "format_error");
      } else {
        r := AcceptAnswer(base, d, prior);
      }
    }

    method DispatchAnswer(ghost base: State, d: Draft, prior: Stage, message: Message, cutShort: bool)
      returns (r: Draft)
      requires Valid()
      modifies this, tracker
      ensures Valid()
      ensures Doing(base, r) == Dispatch(cfg, old(Doing(base, d)), prior, message, cutShort)
    {
      hide Transit, HandleForceFinal, GenerationCheck, HandleToolCalls, HandleText;
      if d.error.Some? {
        return d;
      }
      if cutShort && !message.HasContent() && !message.HasToolCalls() {
        r := TransitStage(base, d, TokenExceeded);
        return;
      }
      if prior == ForceFinalAwaitAssistant {
        r := HandleForceFinalizationResponse(base, d, message);
        return;
      }
      if cutShort {
        r := TransitStage(base, d, TokenExceeded);
        return;
      }
      var checked := MaybeStopOrWarn(base, d, stage == AssistantReceived, false);
      if checked.Some? {
        return checked.value;
      }
      if message.HasToolCalls() {
        r := HandleAssistantToolCalls(base, d, message);
      } else {
        r := HandleTextAnswer(base, d, prior, message);
      }
    }

    method ApplyAssistantMessage(message: Message, cutShort: bool) returns (result: Outcome<StepResult>)
      requires Valid()
      modifies this, tracker
      ensures Valid()
      ensures
        var w := ApplyAssistant(cfg, old(Value()), message, cutShort);
        Value() == w.st && result == Result(w, false)
    {
      hide Receive, Dispatch, Result;
      ghost var base := Value();
      var error := if message.role != Assistant then Some(NotAssistantMessage)
                   else if log == [] then Some(ConversationNotInitialized)
                   else if ActionOf(stage) != Some(CallModel) then Some(WrongStage)
                   else None;
      var prior := stage;
      var d := Draft([stage], [], error);
      if error.None? {
        d := ReceiveAnswer(message);
        d := DispatchAnswer(base, d, prior, message, cutShort);
      }
      result := BuildStepResult(base, d, false);
    }

    method ReceiveAnswer(message: Message) returns (r: Draft)
      requires Valid()
      modifies this, tracker
      ensures Valid()
      ensures Doing(old(Value()), r) == Receive(old(Value()), message)
    {
      hide Append, Transit;
      ghost var base := Value();
      r := AppendMessages(base, Draft([stage], [], None), [message]);
      if r.error.None? {
        turns := turns + 1;
        r := TransitStage(base, r, AssistantReceived);
      }
    }

    // ---------- Initialization ----------

    method OpenConversation(prompt: Text) returns (r: Draft)
      requires Valid()
      modifies this, tracker
      ensures Valid()
      ensures Doing(old(Value()), r) == Opened(cfg, old(Value()), prompt)
    {
      hide Append, Transit;
      ghost var base := Value();
      r := Draft([stage], [], None);
      if cfg.systemPrompt.Some? && cfg.systemPrompt.value != "" {
        r := AppendAndMove(base, r, [SystemMessage(Plain(cfg.systemPrompt.value))], SystemMessageSet);
      }
      r := AppendAndMove(base, r, [UserMessage(prompt)], InitialAwaitAssistant);
    }

    method InitializeConversation(prompt: Text) returns (result: Outcome<StepResult>)
      requires Valid()
      modifies this, tracker
      ensures Valid()
      ensures
        var w := Initialize(cfg, old(Value()), prompt);
        Value() == w.st && result == Result(w, false)
    {
      hide Opened, AwaitAssistant, Result;
      ghost var base := Value();
      if log != [] {
        result := BuildStepResult(base, Draft([stage], [], Some(AlreadyInitialized)), false);
        return;
      }
      var d := OpenConversation(prompt);
      d := HandleWaitForAssistant(base, d, true);
      result := BuildStepResult(base, d, false);
    }

    // ---------- Tool results ----------

    /** Validate results against the pending calls, which are forgotten either way. */
    method ResolvePendingToolCalls(results: seq<Message>, rejected: set<string>) returns (all: Option<seq<Message>>)
      requires Valid()
      modifies this`pending
      ensures Valid() && pending == [] && all == Resolve(cfg, old(pending), results, rejected)
    {
      hide Aggregate;
      var calls := pending;
      pending := [];
      if |results| != |calls| {
        return None;
      }
      if CallIds(calls) != AnsweredIds(results) {
        return None;
      }
      if !cfg.aggregateRejected {
        return Some(results);
      }
      var merged := AggregateRejected(results, rejected, cfg.joinNames);
      return Some(merged);
    }

    method ApplyBatchToolMessages(results: seq<Message>, exhausted: bool, rejected: set<string>)
      returns (result: Outcome<StepResult>)
      requires Valid()
      modifies this, tracker
      ensures Valid()
      ensures
        var w := ApplyToolResults(cfg, old(Value()), results, exhausted, rejected);
        Value() == w.st && result == Result(w, false)
    {
      hide ToolWork, Resolve, Inject, AfterToolResults, Result;
      ghost var base := Value();
      var all := ResolvePendingToolCalls(results, rejected);
      var error := if all.None? || all.value == [] then Some(WrongToolResults)
                   else if !AllTool(all.value) then Some(NotToolMessages)
                   else if log == [] then Some(ConversationNotInitialized)
                   else if stage != ToolCallsAwaitTool then Some(WrongStage)
                   else None;
      var d := Draft([stage], [], error);
      if error.None? {
        d := AppendToolMessages(base, d, all.value);
        if exhausted {
          d := InjectForceFinalization(base, d, ToolsExhausted);
        } else {
          d := CheckAfterToolResults(base, d);
        }
      }
      result := BuildStepResult(base, d, false);
    }

    method AppendToolMessages(ghost base: State, d: Draft, all: seq<Message>) returns (r: Draft)
      requires Valid() && d == Draft([stage], [], None) && Value() == base.(pending := [])
      modifies this, tracker
      ensures Valid()
      ensures Doing(base, r) == ToolWork(base, all)
    {
      hide Append, Transit;
      r := AppendAndMove(base, d, all, ToolMessagesAwaitAssistant);
    }

    method CheckAfterToolResults(ghost base: State, d: Draft) returns (r: Draft)
      requires Valid()
      modifies this, tracker
      ensures Valid()
      ensures Doing(base, r) == AfterToolResults(cfg, old(Doing(base, d)))
    {
      hide GenerationCheck, AwaitAssistant;
      if d.error.Some? {
        return d;
      }
      var checked := MaybeStopOrWarn(base, d, stage in CHECKPOINTS, true);
      if checked.Some? {
        return checked.value;
      }
      r := HandleWaitForAssistant(base, d, true);
    }

    // ---------- Error recovery ----------

    method ForceFinalizeAfterContextError() returns (result: Outcome<StepResult>)
      requires Valid()
      modifies this, tracker
      ensures Valid()
      ensures
        var w := RecoverFromContextError(cfg, old(Value()));
        Value() == w.st && result == Result(w, old(stage) == ForceFinalAwaitAssistant)
    {
      hide ForceFinalizeForContext;
      ghost var base := Value();
      if log == [] {
        return Raised(ConversationNotInitialized);
      }
      var d := Draft([stage], [], None);
      if stage == ForceFinalAwaitAssistant {
        result := BuildStepResult(base, d, true);
        return;
      }
      d := ForceFinalizeDueToContextLimit(base, d, true);
      result := BuildStepResult(base, d, false);
    }

    method ComputeLatestExchange(visible: seq<Message>) returns (count: nat)
      ensures count == LatestExchange(cfg, visible)
    {
      hide Config.EarlyStopPrompt, TrailingResults;
      count := 0;
      var idx := |visible| - 1;
      var prompt := cfg.EarlyStopPrompt();
      if idx >= 0 && prompt.Some? && prompt.value != "" && visible[idx].role == User
         && visible[idx].content == Some(Plain(prompt.value)) {
        count := count + 1;
        idx := idx - 1;
      }
      ghost var p := count;
      ghost var w := visible[..|visible| - p];
      var results := 0;
      assert w[..|w|] == w;
      while idx >= 0 && IsToolResult(visible[idx])
        invariant -1 <= idx == |visible| - 1 - p - results && count == p + results
        invariant TrailingResults(w) == results + TrailingResults(w[..idx + 1])
        decreases idx
      {
        TrailingStep(w, idx + 1);
        count := count + 1;
        results := results + 1;
        idx := idx - 1;
      }
      TrailingStep(w, idx + 1);
      if results == 0 || idx < 0 {
        return 0;
      }
      if visible[idx].role == Assistant && visible[idx].HasToolCalls() {
        return count + 1;
      }
      return 0;
    }

    /** None when there is no exchange to roll back, or the stage does not allow it. */
    method RollbackLatestExchangeAndForceFinalize(reason: string, why: Trigger)
      returns (result: Option<Outcome<StepResult>>)
      requires Valid()
      modifies this, tracker
      ensures Valid()
      ensures
        var w := RollBackLatestExchange(cfg, old(Value()), reason, why);
        && (w.None? ==> result.None? && Value() == old(Value()))
        && (w.Some? ==> result == Some(Result(w.value, false)) && Value() == w.value.st)
    {
      hide Append, Transit, Inject, LatestExchange, BuildRollback, Result;
      ghost var base := Value();
      if log == [] || ActionOf(stage) != Some(CallModel) {
        var failed := Draft([stage], [], Some(if log == [] then ConversationNotInitialized else WrongStage));
        var raised := BuildStepResult(base, failed, false);
        return Some(raised);
      }
      var visible := tracker.VisibleMessages();
      var count := ComputeLatestExchange(visible);
      if count == 0 || ContextLimitRollback !in Next(stage) {
        return None;
      }
      var d := AppendAndMove(base, Draft([stage], [], None), [BuildRollback(count, reason)], ContextLimitRollback);
      d := InjectForceFinalization(base, d, why);
      var r := BuildStepResult(base, d, false);
      return Some(r);
    }

    /** None when the rollback budget is spent. */
    method RollbackAssistantToolCalls(reason: string) returns (result: Option<Outcome<StepResult>>)
      requires Valid()
      modifies this, tracker
      ensures Valid()
      ensures
        var w := RollBackToolCalls(cfg, old(Value()), reason);
        && (w.None? ==> result.None? && Value() == old(Value()))
        && (w.Some? ==> result == Some(Result(w.value, false)) && Value() == w.value.st)
    {
      hide Append, Transit, BuildRollback, Result;
      ghost var base := Value();
      if rollbacks >= cfg.maxRollbacks {
        return None;
      }
      TakeBackTurn();
      pending := [];
      var d := Draft([stage], [], None);
      assert Doing(base, d) == Begin(base).(st := UndoTurn(base).(pending := []));
      d := HideLastMessage(base, d, reason, ToolMessagesAwaitAssistant);
      var r := BuildStepResult(base, d, false);
      return Some(r);
    }

    // ---------- Outside the stage machine ----------

    method ResetRollbackCounter()
      requires Valid()
      modifies this`rollbacks
      ensures Valid() && Value() == old(Value()).(rollbacks := 0)
    {
      rollbacks := 0;
    }

    method ReopenAfterContextReset()
      requires Valid()
      modifies this`stage, this`pending, this`rollbacks, this`trigger, this`hasPrompt
      ensures Valid() && Value() == Reopened(old(Value()))
    {
      pending, rollbacks, trigger, hasPrompt := [], 0, None, false;
      stage := InitialAwaitAssistant;
    }

    method RecordObservedPromptTokens(visible: seq<Message>, inputTokens: Option<int>)
      requires Valid()
      modifies this, tracker
      ensures Valid()
      ensures Value() == Observe(cfg, old(Value()), visible, inputTokens)
    {
      if inputTokens.None? || inputTokens.value <= 0 || !cfg.Incremental() {
        return;
      }
      var same := tracker.Matches(visible);
      if !same {
        return;
      }
      var raw := tracker.RawEstimateWith(cfg.Probe());
      tracker.AnchorObservedTokens(inputTokens.value, Some(raw));
    }

    // ---------- Results ----------

    method BuildStepResult(ghost base: State, d: Draft, errorDuringForceFinal: bool)
      returns (result: Outcome<StepResult>)
      requires Valid()
      ensures result == Result(Doing(base, d), errorDuringForceFinal)
    {
      if d.error.Some? {
        return Raised(d.error.value);
      }
      var action := ActionOf(stage);
      if action.None? {
        return Raised(InternalStage);
      }
      var visible := tracker.VisibleMessages();
      var reported := if stage in {ForceFinalAwaitAssistant, ForceCompleted, ToolCallsRejected, Completed} then trigger
        else None;
      return Ok(StepResult(stage, action.value, visible, log, d.appended, d.path, reported, errorDuringForceFinal));
    }
  }
}
