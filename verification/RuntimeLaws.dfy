/** What every step of the runtime keeps: the stage machine, the turn bound, and the visible conversation. */
module RuntimeLaws {
  import opened Messages
  import opened Markers
  import opened Visibility
  import opened TrackedView
  import opened Stages
  import opened ContextBudget
  import opened ToolAnswers
  import opened RuntimeSpec

  // ---------- What appending does ----------

  lemma AppendPlain(w: Work, ms: seq<Message>)
    requires w.error.None? && w.st.log != []
    requires forall i :: 0 <= i < |ms| ==> ms[i].role != System && ms[i].role != Runtime
    ensures Append(w, ms).error.None?
    ensures Append(w, ms).st == w.st.(log := w.st.log + ms, view := w.st.view.(visible := w.st.view.visible + ms))
    ensures Append(w, ms).path == w.path
  {
    ViewReplayPlain(w.st.view, ms);
  }

  lemma AppendRollback(w: Work, n: nat, reason: string)
    requires w.error.None? && w.st.log != [] && n > 0
    ensures
      var m := BuildRollback(n, reason);
      && Append(w, [m]).error.None?
      && Append(w, [m]).st == w.st.(log := w.st.log + [m], view := Hidden(w.st.view, n))
      && Append(w, [m]).path == w.path
  {
    var m := BuildRollback(n, reason);
    MarkersRoundTrip(n, reason, Compaction(Plain(""), 0, 1), DiscardAll(0));
    ViewReplayOne(w.st.view, m);
    assert EffectOf(m) == Hide(n);
  }

  /** Hiding `n` messages above the last system message removes exactly those. */
  lemma HideExactly(v: seq<Message>, n: nat)
    requires n <= |v| && forall i :: |v| - n <= i < |v| ==> v[i].role != System
    ensures DropTail(v, n) == v[..|v| - n]
  {
    TailIsRemovable(v, n);
  }

  lemma {:induction false} TailIsRemovable(v: seq<Message>, n: nat)
    requires n <= |v| && forall i :: |v| - n <= i < |v| ==> v[i].role != System
    ensures RemovableTail(v) >= n
  {
    if n > 0 {
      assert v[|v| - 1].role != System;
      TailIsRemovable(v[..|v| - 1], n - 1);
    }
  }

  /** A context-limit rollback reaches back to the last assistant message, never past a system message. */
  lemma {:induction false} RollbackSizeMeaning(v: seq<Message>)
    ensures
      var n := RollbackSize(v);
      && (forall i :: |v| - n <= i < |v| ==> v[i].role != System)
      && (forall i :: |v| - n < i < |v| ==> v[i].role != Assistant)
      && (n < |v| && (n == 0 || v[|v| - n].role != Assistant) ==> v[|v| - n - 1].role == System)
  {
    if v != [] && v[|v| - 1].role != System && v[|v| - 1].role != Assistant {
      RollbackSizeMeaning(v[..|v| - 1]);
    }
  }

  lemma AppendContextRollback(w: Work)
    requires w.error.None? && w.st.log != [] && RollbackSize(w.st.view.visible) > 0
    ensures
      var n := RollbackSize(w.st.view.visible);
      var r := Append(w, [BuildRollback(n, ReasonText(ContextLimit))]);
      && r.error.None? && r.path == w.path
      && r.st == w.st.(log := r.st.log, view := r.st.view) && r.st.log != []
      && r.st.view.visible == w.st.view.visible[..|w.st.view.visible| - n]
  {
    var v := w.st.view.visible;
    var n := RollbackSize(v);
    AppendRollback(w, n, ReasonText(ContextLimit));
    RollbackSizeMeaning(v);
    HideExactly(v, n);
  }

  // ---------- Forced finalization ----------

  /** Only the log, the view, the stage, and the record of why generation was forced have changed. */
  predicate SameCounters(a: State, b: State) {
    a.turns == b.turns && a.pending == b.pending && a.rollbacks == b.rollbacks
  }

  lemma InjectEffect(cfg: Config, w: Work, trigger: Trigger)
    requires w.error.None? && w.st.log != [] && ForceFinalAwaitAssistant in Next(w.st.stage)
    ensures
      var r := Inject(cfg, w, trigger);
      && r.error.None? && r.st.stage == ForceFinalAwaitAssistant
      && r.st.trigger == Some(trigger) && r.st.hasPrompt == cfg.EarlyStopPrompt().Some?
      && SameCounters(r.st, w.st) && r.st.log != [] && r.st.log == w.st.log + cfg.WarningMessages()
      && r.st.view.visible == w.st.view.visible + cfg.WarningMessages()
  {
    AppendPlain(w, cfg.WarningMessages());
  }

  /** How many messages a forced finalization for context hides at this stage. */
  function HiddenForContext(st: State, rollback: bool): (n: nat)
    ensures n <= |st.view.visible|
  {
    if rollback && ContextLimitRollback in Next(st.stage) then RollbackSize(st.view.visible) else 0
  }

  /** The conversation left after the context rollback. */
  function KeptForContext(st: State, rollback: bool): seq<Message> {
    st.view.visible[..|st.view.visible| - HiddenForContext(st, rollback)]
  }

  /** The one way in which forced finalization can ask for a transition that the table lacks. */
  predicate Stuck(cfg: Config, st: State, rollback: bool) {
    && cfg.minGeneration > 0 && cfg.preflight
    && HiddenForContext(st, rollback) == 0 && TokenExceeded !in Next(st.stage)
    && !WarningFits(cfg, st.view)
  }

  lemma RollBackForContextEffect(w: Work, rollback: bool)
    requires w.error.None? && w.st.log != []
    ensures
      var r := RollBackForContext(w, rollback);
      && r.error.None? && SameCounters(r.st, w.st) && r.st.log != []
      && r.st.trigger == w.st.trigger
      && r.st.view.visible == KeptForContext(w.st, rollback)
      && (if HiddenForContext(w.st, rollback) == 0 then r == w else r.st.stage == ContextLimitRollback)
  {
    if HiddenForContext(w.st, rollback) > 0 {
      AppendContextRollback(w);
    } else {
      assert w.st.view.visible[..|w.st.view.visible|] == w.st.view.visible;
    }
  }

  lemma ForceFinalizeEffect(cfg: Config, w: Work, rollback: bool)
    requires w.error.None? && w.st.log != [] && ForceFinalAwaitAssistant in Next(w.st.stage)
    ensures
      var r := ForceFinalizeForContext(cfg, w, rollback);
      && (r.error.Some? <==> Stuck(cfg, w.st, rollback))
      && r.st.turns == w.st.turns
      && (r.error.None? ==>
           && SameCounters(r.st, w.st) && r.st.log != []
           && (r.st.stage == ForceFinalAwaitAssistant || r.st.stage == TokenExceeded)
           && (!cfg.MayStop() ==> r.st.stage == ForceFinalAwaitAssistant)
           && (r.st.stage == ForceFinalAwaitAssistant ==>
                && r.st.trigger == Some(ContextLimit) && r.st.hasPrompt == cfg.EarlyStopPrompt().Some?
                && r.st.view.visible == KeptForContext(w.st, rollback) + cfg.WarningMessages())
           && (r.st.stage == TokenExceeded ==> r.st.view.visible == KeptForContext(w.st, rollback)))
  {
    RollBackForContextEffect(w, rollback);
    var w1 := RollBackForContext(w, rollback);
    InjectEffect(cfg, w1, ContextLimit);
  }

  // ---------- Waiting for the assistant ----------

  predicate Awaiting(s: Stage) {
    ActionOf(s) == Some(CallModel) && s != ForceFinalAwaitAssistant
  }

  /** The stages at which the context checkpoint runs before the next generation. */
  predicate Unchecked(s: Stage) {
    s == InitialAwaitAssistant || s == ToolMessagesAwaitAssistant
  }

  /** The checkpoint lets this state through. */
  predicate PassesCheckpoint(cfg: Config, st: State) {
    cfg.preflight && st.stage in CHECKPOINTS ==>
      var b := ForceFinalizationBudget(cfg, st.view);
      !b.hardStop && !b.needsWarning && b.warningFits
  }

  /** Generation was forced to finish or stopped: the counters are untouched, and the conversation was
      cut (if at all) before the force-final prompt was added. */
  ghost predicate Ended(cfg: Config, before: State, after: State) {
    && SameCounters(after, before) && after.log != []
    && (after.stage == ForceFinalAwaitAssistant || after.stage == TokenExceeded)
    && (!cfg.MayStop() ==> after.stage == ForceFinalAwaitAssistant)
    && (after.stage == ForceFinalAwaitAssistant ==>
         after.trigger.Some? && after.hasPrompt == cfg.EarlyStopPrompt().Some?)
    && exists k: nat :: CutAt(cfg, before, after, k)
  }

  predicate CutAt(cfg: Config, before: State, after: State, k: nat) {
    && k <= |before.view.visible|
    && after.view.visible == before.view.visible[..k]
         + (if after.stage == ForceFinalAwaitAssistant then cfg.WarningMessages() else [])
  }

  lemma ForcedEnds(cfg: Config, w: Work, rollback: bool)
    requires w.error.None? && w.st.log != [] && ForceFinalAwaitAssistant in Next(w.st.stage)
    requires !Stuck(cfg, w.st, rollback)
    ensures ForceFinalizeForContext(cfg, w, rollback).error.None?
    ensures Ended(cfg, w.st, ForceFinalizeForContext(cfg, w, rollback).st)
  {
    ForceFinalizeEffect(cfg, w, rollback);
    var r := ForceFinalizeForContext(cfg, w, rollback);
    var k := |w.st.view.visible| - HiddenForContext(w.st, rollback);
    assert r.st.stage == TokenExceeded ==> KeptForContext(w.st, rollback) + [] == KeptForContext(w.st, rollback);
    assert CutAt(cfg, w.st, r.st, k);
  }

  lemma InjectEnds(cfg: Config, w: Work, trigger: Trigger)
    requires w.error.None? && w.st.log != [] && ForceFinalAwaitAssistant in Next(w.st.stage)
    ensures Inject(cfg, w, trigger).error.None?
    ensures Ended(cfg, w.st, Inject(cfg, w, trigger).st)
  {
    InjectEffect(cfg, w, trigger);
    assert CutAt(cfg, w.st, Inject(cfg, w, trigger).st, |w.st.view.visible|);
  }

  lemma StopEnds(cfg: Config, w: Work)
    requires w.error.None? && w.st.log != [] && TokenExceeded in Next(w.st.stage) && cfg.MayStop()
    ensures Transit(w, TokenExceeded).error.None?
    ensures Ended(cfg, w.st, Transit(w, TokenExceeded).st)
  {
    assert CutAt(cfg, w.st, Transit(w, TokenExceeded).st, |w.st.view.visible|);
  }

  lemma CheckpointEffect(cfg: Config, w: Work)
    requires w.error.None? && w.st.log != [] && Unchecked(w.st.stage)
    ensures
      var c := ContextCheckpoint(cfg, w);
      && (c.None? <==> PassesCheckpoint(cfg, w.st))
      && (c.Some? ==> c.value.error.None? && Ended(cfg, w.st, c.value.st))
  {
    if cfg.preflight && w.st.stage in CHECKPOINTS {
      var b := ForceFinalizationBudget(cfg, w.st.view);
      if b.hardStop {
        StopEnds(cfg, w);
      } else if b.needsWarning || !b.warningFits {
        ForcedEnds(cfg, w, true);
      }
    }
  }

  lemma AwaitEffect(cfg: Config, w: Work, checkContext: bool)
    requires w.error.None? && w.st.log != [] && Awaiting(w.st.stage)
    requires checkContext ==> Unchecked(w.st.stage)
    ensures
      var r := AwaitAssistant(cfg, w, checkContext);
      && r.error.None?
      && (Ended(cfg, w.st, r.st)
          || (r == w && !TurnLimitReached(cfg, w.st) && (checkContext ==> PassesCheckpoint(cfg, w.st))))
  {
    if checkContext {
      CheckpointEffect(cfg, w);
    }
    if TurnLimitReached(cfg, w.st) && !(checkContext && ContextCheckpoint(cfg, w).Some?) {
      InjectEnds(cfg, w, TurnLimit);
    }
  }

  lemma GenerationCheckEffect(cfg: Config, w: Work, rollback: bool)
    requires w.error.None? && w.st.log != []
    requires w.st.stage == AssistantReceived || w.st.stage == ToolMessagesAwaitAssistant
    ensures
      var c := GenerationCheck(cfg, w, true, rollback);
      && (c.Some? ==> c.value.error.None? && Ended(cfg, w.st, c.value.st))
      && (!cfg.MayStop() ==> c.None?)
  {
    if cfg.preflight && cfg.minGeneration > 0 {
      var b := GenerationBudget(cfg, w.st.view);
      if b.hardStop {
        StopEnds(cfg, w);
      } else if b.needsWarning {
        ForcedEnds(cfg, w, rollback);
      }
    }
  }

  // ---------- The invariant ----------

  /** Turns never pass the limit, and before the last permitted turn generation has been forced to finish. */
  predicate TurnsOk(cfg: Config, st: State) {
    cfg.maxTurns.Some? ==>
      var max := cfg.maxTurns.value;
      && st.turns <= max
      && (st.stage == ForceFinalAwaitAssistant || st.stage == ToolCallsAwaitTool ==> st.turns < max)
      && (Awaiting(st.stage) ==> st.turns + 1 < max)
  }

  /** The message whose tool calls are pending is the last one the model sees. */
  predicate EndsWithCalls(v: seq<Message>, calls: seq<ToolCall>) {
    v != [] && v[|v| - 1].role == Assistant && v[|v| - 1].toolCalls == Some(calls)
  }

  /** What holds between any two steps of an initialized runtime. */
  ghost predicate Inv(cfg: Config, st: State) {
    && st.log != []
    && ActionOf(st.stage).Some?
    && st.view.Wf() && st.view.visible == Replay([], st.log)
    && (st.pending != [] <==> st.stage == ToolCallsAwaitTool)
    && (st.stage == ToolCallsAwaitTool ==> st.turns > 0 && EndsWithCalls(st.view.visible, st.pending))
    && st.rollbacks <= cfg.maxRollbacks
    && TurnsOk(cfg, st)
    && (st.stage == ForceFinalAwaitAssistant || st.stage == ForceCompleted ==> st.trigger.Some?)
    && (st.stage == ForceFinalAwaitAssistant ==> st.hasPrompt == cfg.EarlyStopPrompt().Some?)
    && (Awaiting(st.stage) || st.stage == ToolCallsAwaitTool ==> st.trigger.None?)
  }

  /** The part of the invariant that follows from bookkeeping alone. */
  lemma TrackedVisible(w: Work)
    requires Tracks(w) && w.base.view.Wf() && w.base.view.visible == Replay([], w.base.log)
    ensures w.st.view.Wf() && w.st.view.visible == Replay([], w.st.log)
  {
    ViewReplayVisible(w.base.view, w.appended);
    ViewReplayWf(w.base.view, w.appended);
    ReplayConcat([], w.base.log, w.appended);
  }

  lemma EndedInv(cfg: Config, w: Work, before: State)
    requires Tracks(w) && w.base.view.Wf() && w.base.view.visible == Replay([], w.base.log)
    requires Ended(cfg, before, w.st)
    requires before.pending == [] && before.rollbacks <= cfg.maxRollbacks
    requires cfg.maxTurns.Some? ==> before.turns < cfg.maxTurns.value
    ensures Inv(cfg, w.st)
  {
    TrackedVisible(w);
  }

  // ---------- Assistant messages ----------

  lemma ReceiveEffect(st: State, m: Message)
    requires st.log != [] && ActionOf(st.stage) == Some(CallModel) && m.role == Assistant
    ensures
      var w := Receive(st, m);
      && w.error.None?
      && w.st == st.(stage := AssistantReceived, turns := st.turns + 1, log := st.log + [m],
                     view := st.view.(visible := st.view.visible + [m]))
  {
  }

  /** The state right after an answer has entered the log. */
  predicate Arrived(st: State, m: Message, w: Work) {
    && st.log != [] && m.role == Assistant && w.error.None?
    && w.st == st.(stage := AssistantReceived, turns := st.turns + 1, log := st.log + [m],
                   view := st.view.(visible := st.view.visible + [m]))
  }

  /** A refused or malformed answer is undone: prompt, calibration, anchor and turn count are those from
      before the answer, and one rollback is spent; so is the stage, unless it was one of the re-prompts. */
  lemma RolledBackAnswerIsUndone(st: State, m: Message, w: Work, reason: string)
    requires Arrived(st, m, w) && st.view.Wf() && Awaiting(st.stage)
    ensures
      var r := RollBackAssistant(w, st.stage, reason);
      && r.error.None?
      && r.st == st.(log := r.st.log, rollbacks := st.rollbacks + 1, stage := RollbackTarget(st.stage))
      && r.st.log != [] && Awaiting(r.st.stage)
      && (st.stage == InitialAwaitAssistant || st.stage == ToolMessagesAwaitAssistant ==> r.st.stage == st.stage)
  {
    hide Append, ViewReplay, BuildRollback, Hidden;
    AppendRollback(w.(st := UndoTurn(w.st)), 1, reason);
    HideAnswer(st.view, m);
  }

  /** Hiding an answer restores the view from before it, anchor and all. */
  lemma HideAnswer(v: View, m: Message)
    requires v.Wf() && m.role != System
    ensures Hidden(v.(visible := v.visible + [m]), 1) == v
  {
  }

  /** After a prompt to the model, the turn stands: either the model is asked again, one turn before the
      limit at the latest, or generation has been forced to finish. */
  lemma PromptEffect(cfg: Config, w: Work, prompt: Text, next: Stage)
    requires w.error.None? && w.st.log != [] && next in Next(w.st.stage)
    requires next == FinalPromptAwaitAssistant || next == FormatErrorAwaitAssistant
    ensures
      var r := Prompt(cfg, w, prompt, next);
      var asked := w.st.(stage := next, log := w.st.log + [UserMessage(prompt)],
                         view := w.st.view.(visible := w.st.view.visible + [UserMessage(prompt)]));
      && r.error.None?
      && (Ended(cfg, asked, r.st) || (r.st == asked && !TurnLimitReached(cfg, asked)))
  {
    AppendPlain(w, [UserMessage(prompt)]);
    AwaitEffect(cfg, Transit(Append(w, [UserMessage(prompt)]), next), false);
  }

  // ---------- Tool exchanges in sight ----------

  predicate MakesCalls(m: Message) {
    m.role == Assistant && m.HasToolCalls()
  }

  /** How many visible messages are assistant messages with tool calls. */
  function Exchanges(v: seq<Message>): nat {
    if v == [] then 0 else Exchanges(v[..|v| - 1]) + (if MakesCalls(v[|v| - 1]) then 1 else 0)
  }

  lemma {:induction false} ExchangesConcat(a: seq<Message>, b: seq<Message>)
    ensures Exchanges(a + b) == Exchanges(a) + Exchanges(b)
  {
    if b == [] {
      assert a + b == a;
    } else {
      assert (a + b)[..|a + b| - 1] == a + b[..|b| - 1];
      ExchangesConcat(a, b[..|b| - 1]);
    }
  }

  lemma {:induction false} NoExchanges(v: seq<Message>)
    requires forall i :: 0 <= i < |v| ==> v[i].role != Assistant
    ensures Exchanges(v) == 0
  {
    if v != [] {
      NoExchanges(v[..|v| - 1]);
    }
  }

  lemma OneExchange(m: Message)
    ensures Exchanges([m]) == if MakesCalls(m) then 1 else 0
  {
  }

  lemma EndedExchanges(cfg: Config, before: State, after: State)
    requires Ended(cfg, before, after)
    ensures Exchanges(after.view.visible) <= Exchanges(before.view.visible)
  {
    var k: nat :| CutAt(cfg, before, after, k);
    var v := before.view.visible;
    assert v == v[..k] + v[k..];
    ExchangesConcat(v[..k], v[k..]);
    var warning := if after.stage == ForceFinalAwaitAssistant then cfg.WarningMessages() else [];
    ExchangesConcat(v[..k], warning);
    NoExchanges(warning);
  }

  // ---------- One answer of the model ----------

  /** The answer is accepted as tool calls to run. */
  predicate CallsPending(st: State, m: Message, r: State) {
    && m.HasToolCalls()
    && r == st.(stage := ToolCallsAwaitTool, turns := st.turns + 1, pending := m.toolCalls.value,
                log := st.log + [m], view := st.view.(visible := st.view.visible + [m]))
  }

  /** The runtime hides answers with this text while it has rollbacks left. */
  predicate Hides(cfg: Config, text: Text) {
    cfg.refuses(text) || (cfg.strategy == FormatErrorStrategy.Rollback && cfg.misformats(text))
  }

  /** The answer is rolled back: only the log and the rollback count remember it. */
  predicate AnswerUndone(cfg: Config, st: State, m: Message, r: State) {
    && MayRollBack(cfg, st) && m.content.Some? && Hides(cfg, m.content.value)
    && r == st.(log := r.log, rollbacks := st.rollbacks + 1, stage := RollbackTarget(st.stage))
  }

  /** The answer stands and takes its turn; the model is asked again, or forced to finish. */
  predicate AnswerStands(cfg: Config, st: State, m: Message, r: State) {
    && r.turns == st.turns + 1
    && (r.rollbacks == st.rollbacks || (r.rollbacks == 0 && cfg.finalPrompt.Some?))
    && Exchanges(r.view.visible) <= Exchanges(st.view.visible) + (if Awaiting(r.stage) then 0 else 1)
    && (Awaiting(r.stage) || r.stage == ForceFinalAwaitAssistant)
  }

  predicate AnswerEffect(cfg: Config, st: State, m: Message, r: State) {
    || (ActionOf(r.stage) == Some(Finish) && r.turns == st.turns + 1)
    || (st.stage != ForceFinalAwaitAssistant
        && (CallsPending(st, m, r) || AnswerUndone(cfg, st, m, r) || AnswerStands(cfg, st, m, r)))
  }

  /** An answer either breaks on an empty final-response prompt or leads to a state with the invariant. */
  predicate AnswerOk(cfg: Config, st: State, m: Message, w: Work) {
    && (w.error.Some? ==> w.error == Some(EmptyFinalPrompt) && cfg.finalPrompt == Some(""))
    && (w.error.None? ==> AnswerEffect(cfg, st, m, w.st))
  }

  /** An answer has arrived at a state with the invariant. */
  ghost predicate Answered(cfg: Config, st: State, m: Message, w: Work) {
    Inv(cfg, st) && ActionOf(st.stage) == Some(CallModel) && Arrived(st, m, w) && Tracks(w) && w.base == st
  }

  /** Where the step stands before the last check: the answer counts, and nothing is pending. */
  predicate Counted(cfg: Config, st: State, before: State) {
    && before.pending == [] && before.turns == st.turns + 1 && before.trigger.None?
    && (before.rollbacks == st.rollbacks || (before.rollbacks == 0 && cfg.finalPrompt.Some?))
  }

  lemma EndedAfterAnswer(cfg: Config, st: State, m: Message, before: State, w: Work)
    requires Inv(cfg, st) && Awaiting(st.stage) && Tracks(w) && w.base == st
    requires Ended(cfg, before, w.st) && w.error.None?
    requires Counted(cfg, st, before) && Exchanges(before.view.visible) <= Exchanges(st.view.visible) + 1
    ensures Inv(cfg, w.st) && AnswerOk(cfg, st, m, w)
  {
    hide Replay, ViewReplay, Exchanges, EndsWithCalls, CutAt;
    EndedInv(cfg, w, before);
    EndedExchanges(cfg, before, w.st);
  }

  lemma AskedAgain(cfg: Config, st: State, m: Message, w: Work)
    requires Inv(cfg, st) && Awaiting(st.stage) && Tracks(w) && w.base == st
    requires w.error.None? && w.st.log != [] && Awaiting(w.st.stage) && !TurnLimitReached(cfg, w.st)
    requires Counted(cfg, st, w.st) && Exchanges(w.st.view.visible) <= Exchanges(st.view.visible)
    ensures Inv(cfg, w.st) && AnswerOk(cfg, st, m, w)
  {
    hide Replay, ViewReplay, Exchanges;
    TrackedVisible(w);
  }

  lemma Settled(cfg: Config, st: State, m: Message, before: State, w: Work)
    requires Inv(cfg, st) && Awaiting(st.stage) && Tracks(w) && w.base == st && w.error.None?
    requires Counted(cfg, st, before) && Exchanges(before.view.visible) <= Exchanges(st.view.visible)
    requires Awaiting(before.stage) && before.log != []
    requires Ended(cfg, before, w.st) || (w.st == before && !TurnLimitReached(cfg, before))
    ensures Inv(cfg, w.st) && AnswerOk(cfg, st, m, w)
  {
    if Ended(cfg, before, w.st) {
      EndedAfterAnswer(cfg, st, m, before, w);
    } else {
      AskedAgain(cfg, st, m, w);
    }
  }

  lemma {:induction false} AnswerExchanges(v: seq<Message>, m: Message)
    ensures Exchanges(v + [m]) <= Exchanges(v) + 1
  {
  }

  lemma {:induction false} PromptedExchanges(v: seq<Message>, m: Message, prompt: Text)
    requires !m.HasToolCalls()
    ensures Exchanges(v + [m] + [UserMessage(prompt)]) == Exchanges(v)
  {
  }

  lemma PromptedAfterAnswer(cfg: Config, st: State, m: Message, w: Work, rollbacks: nat,
                            prompt: Text, next: Stage)
    requires Answered(cfg, st, m, w) && Awaiting(st.stage) && !m.HasToolCalls()
    requires next == FinalPromptAwaitAssistant || next == FormatErrorAwaitAssistant
    requires rollbacks == st.rollbacks || (rollbacks == 0 && cfg.finalPrompt.Some?)
    ensures
      var r := Prompt(cfg, w.(st := w.st.(rollbacks := rollbacks)), prompt, next);
      r.error.None? && Inv(cfg, r.st) && AnswerOk(cfg, st, m, r)
  {
    hide Prompt, TurnLimitReached, Ended, Exchanges, Replay, ViewReplay, EndsWithCalls;
    var w1 := w.(st := w.st.(rollbacks := rollbacks));
    PromptEffect(cfg, w1, prompt, next);
    var r := Prompt(cfg, w1, prompt, next);
    var asked := w1.st.(stage := next, log := w1.st.log + [UserMessage(prompt)],
                        view := w1.st.view.(visible := w1.st.view.visible + [UserMessage(prompt)]));
    PromptedExchanges(st.view.visible, m, prompt);
    Settled(cfg, st, m, asked, r);
  }

  /** A step that ends the conversation with the answer. */
  lemma FinishedAfterAnswer(cfg: Config, st: State, m: Message, w: Work, rollbacks: nat, last: Stage)
    requires Answered(cfg, st, m, w) && rollbacks <= cfg.maxRollbacks
    requires last in Next(AssistantReceived) && ActionOf(last) == Some(Finish)
    requires last == ForceCompleted ==> st.stage == ForceFinalAwaitAssistant
    ensures
      var r := Transit(w.(st := w.st.(rollbacks := rollbacks)), last);
      r.error.None? && Inv(cfg, r.st) && AnswerOk(cfg, st, m, r)
  {
    TrackedVisible(Transit(w.(st := w.st.(rollbacks := rollbacks)), last));
  }

  lemma AcceptStep(cfg: Config, st: State, m: Message, w: Work)
    requires Answered(cfg, st, m, w) && Awaiting(st.stage) && !m.HasToolCalls()
    ensures
      var r := Accept(cfg, w, st.stage);
      AnswerOk(cfg, st, m, r) && (r.error.None? ==> Inv(cfg, r.st))
  {
    if st.stage == FinalPromptAwaitAssistant || cfg.finalPrompt.None? {
      FinishedAfterAnswer(cfg, st, m, w, 0, Completed);
    } else if cfg.finalPrompt.value != "" {
      PromptedAfterAnswer(cfg, st, m, w, 0, Plain(cfg.finalPrompt.value), FinalPromptAwaitAssistant);
    }
  }

  lemma UndoneStep(cfg: Config, st: State, m: Message, w: Work, reason: string)
    requires Answered(cfg, st, m, w) && Awaiting(st.stage) && MayRollBack(cfg, st)
    requires m.content.Some? && Hides(cfg, m.content.value)
    ensures
      var r := RollBackAssistant(w, st.stage, reason);
      r.error.None? && AnswerUndone(cfg, st, m, r.st) && Inv(cfg, r.st) && AnswerOk(cfg, st, m, r)
  {
    hide RollBackAssistant, Replay, ViewReplay, Exchanges;
    RolledBackAnswerIsUndone(st, m, w, reason);
    TrackedVisible(RollBackAssistant(w, st.stage, reason));
  }

  lemma TextStep(cfg: Config, st: State, m: Message, w: Work)
    requires Answered(cfg, st, m, w) && Awaiting(st.stage) && !m.HasToolCalls()
    ensures
      var r := HandleText(cfg, w, st.stage, m);
      AnswerOk(cfg, st, m, r) && (r.error.None? ==> Inv(cfg, r.st))
  {
    if st.stage == FinalPromptAwaitAssistant {
      AcceptStep(cfg, st, m, w);
    } else if MayRollBack(cfg, w.st) && Refused(cfg, m) {
      UndoneStep(cfg, st, m, w, "assistant_refusal");
    } else if cfg.strategy == FormatErrorStrategy.Ignore || !Misformatted(cfg, m) {
      AcceptStep(cfg, st, m, w);
    } else if cfg.strategy == FormatErrorStrategy.Reprompt {
      assert w.(st := w.st.(rollbacks := st.rollbacks)) == w;
      PromptedAfterAnswer(cfg, st, m, w, st.rollbacks, cfg.reprompt, FormatErrorAwaitAssistant);
    } else if MayRollBack(cfg, w.st) {
      UndoneStep(cfg, st, m, w, "format_error");
    } else {
      AcceptStep(cfg, st, m, w);
    }
  }

  lemma ForceFinalStep(cfg: Config, st: State, m: Message, w: Work)
    requires Answered(cfg, st, m, w) && st.stage == ForceFinalAwaitAssistant
    ensures
      var r := HandleForceFinal(w, m);
      r.error.None? && Inv(cfg, r.st) && AnswerOk(cfg, st, m, r)
  {
    assert w.(st := w.st.(rollbacks := st.rollbacks)) == w;
    FinishedAfterAnswer(cfg, st, m, w, st.rollbacks,
      if m.HasToolCalls() then ToolCallsRejected else if w.st.hasPrompt then ForceCompleted else Completed);
  }

  lemma StoppedStep(cfg: Config, st: State, m: Message, w: Work)
    requires Answered(cfg, st, m, w)
    ensures
      var r := Transit(w, TokenExceeded);
      r.error.None? && Inv(cfg, r.st) && AnswerOk(cfg, st, m, r)
  {
    assert w.(st := w.st.(rollbacks := st.rollbacks)) == w;
    FinishedAfterAnswer(cfg, st, m, w, st.rollbacks, TokenExceeded);
  }

  lemma CheckedStep(cfg: Config, st: State, m: Message, w: Work)
    requires Answered(cfg, st, m, w) && Awaiting(st.stage)
    requires GenerationCheck(cfg, w, true, false).Some?
    ensures
      var r := GenerationCheck(cfg, w, true, false).value;
      r.error.None? && Inv(cfg, r.st) && AnswerOk(cfg, st, m, r)
  {
    hide GenerationCheck, Ended, Exchanges, Replay, Tracks, EndsWithCalls, TurnsOk, AnswerEffect;
    GenerationCheckEffect(cfg, w, false);
    AnswerExchanges(st.view.visible, m);
    assert Inv(cfg, st) && st.trigger.None? && st.pending == [];
    hide Inv;
    EndedAfterAnswer(cfg, st, m, w.st, GenerationCheck(cfg, w, true, false).value);
  }

  lemma CallsStep(cfg: Config, st: State, m: Message, w: Work)
    requires Answered(cfg, st, m, w) && Awaiting(st.stage) && m.HasToolCalls()
    ensures
      var r := HandleToolCalls(w, m);
      r.error.None? && Inv(cfg, r.st) && CallsPending(st, m, r.st) && AnswerOk(cfg, st, m, r)
  {
    TrackedVisible(HandleToolCalls(w, m));
  }

  lemma DispatchStep(cfg: Config, st: State, m: Message, cutShort: bool, w: Work)
    requires Answered(cfg, st, m, w)
    ensures
      var r := Dispatch(cfg, w, st.stage, m, cutShort);
      AnswerOk(cfg, st, m, r) && (r.error.None? ==> Inv(cfg, r.st))
  {
    if cutShort && !m.HasContent() && !m.HasToolCalls() {
      StoppedStep(cfg, st, m, w);
    } else if st.stage == ForceFinalAwaitAssistant {
      ForceFinalStep(cfg, st, m, w);
    } else if cutShort {
      StoppedStep(cfg, st, m, w);
    } else if GenerationCheck(cfg, w, true, false).Some? {
      CheckedStep(cfg, st, m, w);
    } else if m.HasToolCalls() {
      CallsStep(cfg, st, m, w);
    } else {
      TextStep(cfg, st, m, w);
    }
  }

  /** Every answer of the model at a stage that waits for one keeps the invariant and does one of four
      things: it ends the conversation, leaves tool calls to run, is undone, or stands. */
  lemma AssistantStep(cfg: Config, st: State, m: Message, cutShort: bool)
    requires Inv(cfg, st) && ActionOf(st.stage) == Some(CallModel) && m.role == Assistant
    ensures
      var r := ApplyAssistant(cfg, st, m, cutShort);
      AnswerOk(cfg, st, m, r) && (r.error.None? ==> Inv(cfg, r.st))
  {
    var w := Receive(st, m);
    ReceiveEffect(st, m);
    assert w.base == st;
    DispatchStep(cfg, st, m, cutShort, w);
  }

  // ---------- When an answer raises ----------

  /** The runtime hides this answer or asks for another one instead of accepting it. */
  predicate NotAccepted(cfg: Config, st: State, m: Message) {
    || (MayRollBack(cfg, st) && Refused(cfg, m))
    || (Misformatted(cfg, m) && cfg.strategy == FormatErrorStrategy.Reprompt)
    || (Misformatted(cfg, m) && cfg.strategy == FormatErrorStrategy.Rollback && MayRollBack(cfg, st))
  }

  /** A text answer is accepted outside the final round while the configured final-response prompt is empty. */
  predicate AnswerRaises(cfg: Config, st: State, m: Message, cutShort: bool) {
    && cfg.finalPrompt == Some("") && Awaiting(st.stage) && st.stage != FinalPromptAwaitAssistant
    && !cutShort && !m.HasToolCalls()
    && GenerationCheck(cfg, Receive(st, m), true, false).None?
    && !NotAccepted(cfg, st, m)
  }

  lemma TextRaises(cfg: Config, st: State, m: Message, w: Work)
    requires Answered(cfg, st, m, w) && Awaiting(st.stage) && !m.HasToolCalls()
    ensures HandleText(cfg, w, st.stage, m).error.Some? <==>
              cfg.finalPrompt == Some("") && st.stage != FinalPromptAwaitAssistant && !NotAccepted(cfg, st, m)
    ensures HandleText(cfg, w, st.stage, m).error.Some? ==> HandleText(cfg, w, st.stage, m).st.turns == st.turns + 1
  {
    hide RollBackAssistant, Prompt, Inv, Tracks, Refused, Misformatted;
    if st.stage == FinalPromptAwaitAssistant {
      FinishedAfterAnswer(cfg, st, m, w, 0, Completed) by { assert Inv(cfg, st); }
    } else if MayRollBack(cfg, w.st) && Refused(cfg, m) {
      UndoneStep(cfg, st, m, w, "assistant_refusal") by { TextHidden(cfg, m); }
    } else if cfg.strategy != FormatErrorStrategy.Ignore && Misformatted(cfg, m)
      && cfg.strategy == FormatErrorStrategy.Reprompt {
      assert w.(st := w.st.(rollbacks := st.rollbacks)) == w;
      PromptedAfterAnswer(cfg, st, m, w, st.rollbacks, cfg.reprompt, FormatErrorAwaitAssistant);
    } else if cfg.strategy != FormatErrorStrategy.Ignore && Misformatted(cfg, m) && MayRollBack(cfg, w.st) {
      UndoneStep(cfg, st, m, w, "format_error") by { TextHidden(cfg, m); }
    } else if cfg.finalPrompt != Some("") {
      AcceptStep(cfg, st, m, w);
    }
  }

  lemma TextHidden(cfg: Config, m: Message)
    requires Refused(cfg, m) || (Misformatted(cfg, m) && cfg.strategy == FormatErrorStrategy.Rollback)
    ensures m.content.Some? && Hides(cfg, m.content.value)
  {
  }

  /** An answer of the model raises exactly in this one situation. */
  lemma AnswerRaisesExactly(cfg: Config, st: State, m: Message, cutShort: bool)
    requires Inv(cfg, st) && ActionOf(st.stage) == Some(CallModel) && m.role == Assistant
    ensures
      var r := ApplyAssistant(cfg, st, m, cutShort);
      (r.error.Some? <==> AnswerRaises(cfg, st, m, cutShort)) && (r.error.Some? ==> r.st.turns == st.turns + 1)
  {
    hide Receive, HandleText, HandleForceFinal, HandleToolCalls, GenerationCheck, Inv, Tracks, NotAccepted;
    assert Inv(cfg, st);
    var w := Receive(st, m);
    assert w.error.None? && Answered(cfg, st, m, w) by { AnswerReceived(cfg, st, m); }
    if (cutShort && !m.HasContent() && !m.HasToolCalls()) || (cutShort && st.stage != ForceFinalAwaitAssistant) {
      StoppedStep(cfg, st, m, w);
    } else if st.stage == ForceFinalAwaitAssistant {
      ForceFinalStep(cfg, st, m, w);
    } else if GenerationCheck(cfg, w, true, false).Some? {
      CheckedStep(cfg, st, m, w);
    } else if m.HasToolCalls() {
      CallsStep(cfg, st, m, w);
    } else {
      TextRaises(cfg, st, m, w);
    }
  }

  /** A text answer outside the final round is hidden when it is refused, or misformatted under the rollback
      strategy, and a rollback is left. */
  predicate AnswerHidden(cfg: Config, st: State, m: Message, cutShort: bool) {
    && Awaiting(st.stage) && st.stage != FinalPromptAwaitAssistant
    && !cutShort && !m.HasToolCalls()
    && GenerationCheck(cfg, Receive(st, m), true, false).None?
    && MayRollBack(cfg, st) && m.content.Some? && Hides(cfg, m.content.value)
  }

  /** An answer takes a turn unless it raises or is hidden, and it is hidden exactly then; what it leaves is the
      state from before it, with a longer log and one rollback less. */
  lemma AnswerHiddenExactly(cfg: Config, st: State, m: Message, cutShort: bool)
    requires Inv(cfg, st) && ActionOf(st.stage) == Some(CallModel) && m.role == Assistant
    ensures
      var r := ApplyAssistant(cfg, st, m, cutShort);
      && (AnswerHidden(cfg, st, m, cutShort) <==> r.error.None? && AnswerUndone(cfg, st, m, r.st))
      && (r.error.None? && !AnswerHidden(cfg, st, m, cutShort) ==> r.st.turns == st.turns + 1)
  {
    hide Receive, HandleText, HandleForceFinal, HandleToolCalls, GenerationCheck, Inv, Tracks, Hides;
    assert Inv(cfg, st);
    var w := Receive(st, m);
    assert w.error.None? && Answered(cfg, st, m, w) by { AnswerReceived(cfg, st, m); }
    if (cutShort && !m.HasContent() && !m.HasToolCalls()) || (cutShort && st.stage != ForceFinalAwaitAssistant) {
      StoppedStep(cfg, st, m, w);
      StoppedStage(w);
    } else if st.stage == ForceFinalAwaitAssistant {
      ForceFinalStep(cfg, st, m, w);
    } else if GenerationCheck(cfg, w, true, false).Some? {
      GenerationCheckEffect(cfg, w, false);
    } else if m.HasToolCalls() {
      CallsStep(cfg, st, m, w);
    } else {
      TextStep(cfg, st, m, w);
      TextHides(cfg, st, m, w);
    }
  }

  lemma TextHides(cfg: Config, st: State, m: Message, w: Work)
    requires Answered(cfg, st, m, w) && Awaiting(st.stage) && !m.HasToolCalls()
    ensures
      var r := HandleText(cfg, w, st.stage, m);
      var hidden := st.stage != FinalPromptAwaitAssistant && MayRollBack(cfg, st) && m.content.Some?
        && Hides(cfg, m.content.value);
      && (hidden ==> r.error.None? && AnswerUndone(cfg, st, m, r.st))
      && (!hidden && r.error.None? ==> r.st.turns == st.turns + 1)
  {
    hide RollBackAssistant, Prompt, Inv, Tracks, Transit;
    assert Inv(cfg, st);
    if st.stage == FinalPromptAwaitAssistant {
      FinishedTurns(w.(st := w.st.(rollbacks := 0)));
    } else if MayRollBack(cfg, st) && m.content.Some? && Hides(cfg, m.content.value) {
      UndoneStep(cfg, st, m, w, if Refused(cfg, m) then "assistant_refusal" else "format_error");
    } else {
      TextStep(cfg, st, m, w);
    }
  }

  lemma FinishedTurns(w: Work)
    requires w.error.None? && w.st.stage == AssistantReceived
    ensures Transit(w, Completed).st.turns == w.st.turns
  {
  }

  /** Tool calls are run when the model makes them before the final round, and nothing cuts them short. */
  predicate CallsAccepted(cfg: Config, st: State, m: Message, cutShort: bool) {
    && Awaiting(st.stage) && !cutShort && m.HasToolCalls()
    && GenerationCheck(cfg, Receive(st, m), true, false).None?
  }

  lemma CallsAcceptedExactly(cfg: Config, st: State, m: Message, cutShort: bool)
    requires Inv(cfg, st) && ActionOf(st.stage) == Some(CallModel) && m.role == Assistant
    ensures
      var r := ApplyAssistant(cfg, st, m, cutShort);
      (r.error.None? && r.st.stage == ToolCallsAwaitTool <==> CallsAccepted(cfg, st, m, cutShort))
  {
    hide Receive, HandleText, HandleForceFinal, HandleToolCalls, GenerationCheck, Inv, Tracks;
    assert Inv(cfg, st);
    var w := Receive(st, m);
    assert w.error.None? && Answered(cfg, st, m, w) by { AnswerReceived(cfg, st, m); }
    if (cutShort && !m.HasContent() && !m.HasToolCalls()) || (cutShort && st.stage != ForceFinalAwaitAssistant) {
      StoppedStage(w);
    } else if st.stage == ForceFinalAwaitAssistant {
      ForceFinalStep(cfg, st, m, w);
    } else if GenerationCheck(cfg, w, true, false).Some? {
      GenerationCheckEffect(cfg, w, false);
    } else if m.HasToolCalls() {
      CallsStep(cfg, st, m, w);
    } else {
      TextStep(cfg, st, m, w);
    }
  }

  lemma StoppedStage(w: Work)
    requires w.error.None? && w.st.stage == AssistantReceived
    ensures Transit(w, TokenExceeded).st.stage == TokenExceeded
  {
  }

  lemma AnswerReceived(cfg: Config, st: State, m: Message)
    requires Inv(cfg, st) && ActionOf(st.stage) == Some(CallModel) && m.role == Assistant
    ensures Answered(cfg, st, m, Receive(st, m))
  {
    hide Receive, Tracks;
    ReceiveEffect(st, m);
  }
}
