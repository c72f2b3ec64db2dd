/** The safety cap of the orchestrator's loop, and single turns of a model that keeps a run going. */
module LoopCap {
  import opened Messages
  import opened Visibility
  import opened TrackedView
  import opened Stages
  import opened ContextBudget
  import opened ToolAnswers
  import opened RuntimeSpec
  import opened RuntimeLaws
  import opened RuntimeSteps
  import opened Orchestration
  import TP = ToolPolicy

  const LOOP_SAFETY_MARGIN: nat := 200

  function SafetyCap(cfg: Config): nat {
    (if cfg.maxTurns.Some? then cfg.maxTurns.value else 10000) + LOOP_SAFETY_MARGIN
  }

  /** Stop a run that is still unfinished after `n` turns if that is too many. */
  function Cap(cfg: Config, s: RunState, n: nat): RunState {
    if s.finished.None? && n >= SafetyCap(cfg) then s.(finished := Some(SafetyLimit)) else s
  }

  /** `n` turns of the loop as the source runs it, with the cap. */
  ghost function Capped(cfg: Config, p: TP.Policy, s: RunState, events: nat -> Event, n: nat): RunState {
    if n == 0 then s
    else
      var before := Capped(cfg, p, s, events, n - 1);
      if before.finished.Some? then before else Cap(cfg, Turn(cfg, p, before, events(n - 1)), n)
  }

  /** Below the cap the capped loop is the uncapped one. */
  lemma {:induction false} CappedIsAfter(cfg: Config, p: TP.Policy, s: RunState, events: nat -> Event, n: nat)
    requires forall k: nat :: k <= n && k >= SafetyCap(cfg) ==> After(cfg, p, s, events, k).finished.Some?
    ensures Capped(cfg, p, s, events, n) == After(cfg, p, s, events, n)
  {
    hide Turn;
    if n > 0 {
      CappedIsAfter(cfg, p, s, events, n - 1);
      assert n >= SafetyCap(cfg) ==> After(cfg, p, s, events, n).finished.Some?;
    }
  }

  /** The cap is 200 turns above the turn limit, or above 10000 without one: before it the capped loop is the uncapped
      one; a run that is still unfinished there ends with nothing else changed. */
  lemma {:induction false} CappedExactly(cfg: Config, p: TP.Policy, s: RunState, events: nat -> Event, n: nat)
    requires s.finished.None?
    ensures
      var cap := (if cfg.maxTurns.Some? then cfg.maxTurns.value else 10000) + 200;
      var there := After(cfg, p, s, events, cap);
      Capped(cfg, p, s, events, n) ==
        if n < cap || there.finished.Some? then After(cfg, p, s, events, n) else there.(finished := Some(SafetyLimit))
    decreases n
  {
    hide Turn;
    var cap := SafetyCap(cfg);
    if n == 0 {
    } else if n < cap {
      CappedIsAfter(cfg, p, s, events, n);
    } else {
      CappedExactly(cfg, p, s, events, n - 1);
      if After(cfg, p, s, events, cap).finished.Some? {
        FinishedStays(cfg, p, s, events, cap, n);
      }
    }
  }

  lemma {:induction false} FinishedStays(cfg: Config, p: TP.Policy, s: RunState, events: nat -> Event, k: nat, n: nat)
    requires k <= n && After(cfg, p, s, events, k).finished.Some?
    ensures After(cfg, p, s, events, n) == After(cfg, p, s, events, k)
    decreases n
  {
    hide Turn;
    if k < n {
      FinishedStays(cfg, p, s, events, k, n - 1);
    }
  }

  /** If the loop bound is below the cap, the cap plays no part in any run. */
  lemma {:induction false} CapNeverFires(cfg: Config, p: TP.Policy, tools: TP.ToolState, task: Text,
                                         events: nat -> Event, n: nat)
    requires cfg.Ok() && cfg.maxTurns.Some? && LoopBound(cfg) < SafetyCap(cfg)
    ensures
      var s := Started(cfg, tools, task);
      && Capped(cfg, p, s, events, n) == After(cfg, p, s, events, n)
      && Capped(cfg, p, s, events, n).finished != Some(SafetyLimit)
  {
    hide Turn, Started, After, Capped;
    var s := Started(cfg, tools, task);
    forall k: nat | k >= SafetyCap(cfg) ensures After(cfg, p, s, events, k).finished.Some? {
      EveryRunEnds(cfg, p, tools, task, events, k);
    }
    CappedIsAfter(cfg, p, s, events, n);
    StartRuns(cfg, tools, task);
    RunKeeps(cfg, p, s, events, n);
  }

  /** The cap takes nothing away: a capped run that has not crashed keeps the invariant, the prompt and the trace. */
  lemma {:induction false} CappedKeeps(cfg: Config, p: TP.Policy, s: RunState, events: nat -> Event, n: nat)
    requires Running(cfg, s)
    ensures
      var r := Capped(cfg, p, s, events, n);
      && (r.finished.None? ==> Running(cfg, r))
      && (!HasCrashed(r) ==> Kept(cfg, r))
      && TurnsWithin(cfg, r.rt)
  {
    hide Turn, Inv, ToDicts, Crashes, Potential, Spendable;
    if n == 0 {
      assert TurnsWithin(cfg, s.rt) by { InvTurns(cfg, s.rt); }
    } else {
      CappedKeeps(cfg, p, s, events, n - 1);
      var before := Capped(cfg, p, s, events, n - 1);
      if before.finished.None? {
        TurnKeeps(cfg, p, before, events(n - 1));
      }
    }
  }

  // ---------- Turns of a model that keeps a run going ----------

  /** Nothing measures the context, and the force-final prompt, if there is one, is not empty, so that it is
      recognised when it is shown. */
  predicate Unmeasured(cfg: Config) {
    (!cfg.preflight || cfg.window.None?) && cfg.EarlyStopPrompt() != Some("") && cfg.maxTurns.Some?
  }

  /** The run's tools: `name` is not one of them, and their budgets are not spent. */
  ghost predicate Roomy(p: TP.Policy, tools: TP.ToolState, name: string) {
    name !in p.tools && !TP.Exhausted(p, tools)
  }

  /** What the manager answers to a call of a tool it does not know. */
  function Answer(p: TP.Policy, name: string): Message {
    ToolMessage(if p.maxPerStep == Some(0) then p.stepMessage else p.unknownMessage(name), "call", name)
  }

  function Calling(name: string): Event {
    Response(CallingMessage(name), false, None, (i: nat) => TP.Threw(Plain("")))
  }

  function Saying(text: Text): Event {
    Response(AssistantMessage(text), false, None, (i: nat) => TP.Threw(Plain("")))
  }

  /** An answer without a text: nothing in it can be hidden or misformatted. */
  function Silence(): Event {
    Response(SILENT, false, None, (i: nat) => TP.Threw(Plain("")))
  }

  const SILENT: Message := Message(Assistant, None, None, None, None, None, None)

  function ExchangesOf(p: TP.Policy, name: string, k: nat): (r: seq<Message>)
    ensures |r| == 2 * k
  {
    if k == 0 then [] else ExchangesOf(p, name, k - 1) + [CallingMessage(name), Answer(p, name)]
  }

  // One hidden answer.

  lemma NoGenerationCheck(cfg: Config, w: Work, stageOk: bool, rollback: bool)
    requires Unmeasured(cfg)
    ensures GenerationCheck(cfg, w, stageOk, rollback).None?
    ensures ContextCheckpoint(cfg, w).None?
  {
  }

  lemma SayingIsHidden(cfg: Config, st: State, text: Text)
    requires Unmeasured(cfg) && Inv(cfg, st)
    requires st.stage == InitialAwaitAssistant || st.stage == ToolMessagesAwaitAssistant
    requires Hides(cfg, text) && MayRollBack(cfg, st)
    ensures
      var w := ApplyAssistant(cfg, st, AssistantMessage(text), false);
      && w.error.None? && Inv(cfg, w.st)
      && w.st == st.(log := w.st.log, rollbacks := st.rollbacks + 1)
  {
    hide Replay, Receive, RollBackAssistant, GenerationCheck, Tracks;
    var m := AssistantMessage(text);
    var w := Receive(st, m);
    ReceiveEffect(st, m);
    NoGenerationCheck(cfg, w, true, false);
    UndoneStep(cfg, st, m, w, if cfg.refuses(text) then "assistant_refusal" else "format_error");
  }

  lemma SayingTurn(cfg: Config, p: TP.Policy, s: RunState, text: Text)
    requires Unmeasured(cfg) && Running(cfg, s)
    requires s.rt.stage == InitialAwaitAssistant || s.rt.stage == ToolMessagesAwaitAssistant
    requires Hides(cfg, text) && MayRollBack(cfg, s.rt)
    ensures
      var r := Turn(cfg, p, s, Saying(text));
      && r.finished.None? && r.tools == s.tools
      && r.rt == s.rt.(log := r.rt.log, rollbacks := s.rt.rollbacks + 1)
  {
    hide ApplyAssistant, Inv, Tracks, Replay, ToDicts, Hides;
    assert Inv(cfg, s.rt);
    SayingIsHidden(cfg, s.rt, text);
    InvReports(cfg, ApplyAssistant(cfg, s.rt, AssistantMessage(text), false), false);
  }

  // One exchange.

  lemma RoundOfOne(p: TP.Policy, tools: TP.ToolState, name: string)
    requires Roomy(p, tools, name)
    ensures
      var (after, outcomes) := TP.ExecuteRound(p, tools, TP.RequestsFor(p, [CallOf(name)]), Calling(name).world);
      TP.MessagesOf(outcomes) == [Answer(p, name)] && Roomy(p, after, name)
  {
    hide TP.RecordRejection;
    var requests := TP.RequestsFor(p, [CallOf(name)]);
    assert requests == [TP.Request(name, map[], "call")];
    assert requests[..0] == [];
    assert TP.RunRequests(p, tools, requests[..0], Calling(name).world) == TP.Round(tools, [], map[], 0);
    var rd := TP.RunRequests(p, tools, requests, Calling(name).world);
    assert rd == TP.OneRequest(p, TP.Round(tools, [], map[], 0), requests[0], Calling(name).world(0));
    RejectionSpendsNothing(p, tools, TP.UNKNOWN_KEY, TP.UnknownTool);
    RejectionSpendsNothing(p, tools, TP.UNKNOWN_KEY, TP.PerStepLimit);
  }

  lemma RejectionSpendsNothing(p: TP.Policy, tools: TP.ToolState, key: string, reason: TP.Reason)
    ensures TP.SameBudgets(TP.RecordRejection(tools, key, reason), tools)
  {
  }

  lemma CallingIsPending(cfg: Config, st: State, name: string)
    requires Unmeasured(cfg) && Inv(cfg, st) && Awaiting(st.stage)
    ensures
      var w := ApplyAssistant(cfg, st, CallingMessage(name), false);
      w.error.None? && Inv(cfg, w.st) && CallsPending(st, CallingMessage(name), w.st)
  {
    hide Replay, Receive, HandleToolCalls, GenerationCheck;
    var m := CallingMessage(name);
    ReceiveEffect(st, m);
    NoGenerationCheck(cfg, Receive(st, m), true, false);
    CallsStep(cfg, st, m, Receive(st, m));
  }

  /** The state after a call and its answer: one turn and one exchange more, forced to finish at the limit. */
  predicate Exchanged(cfg: Config, p: TP.Policy, name: string, st: State, r: State)
    requires cfg.maxTurns.Some?
  {
    var shown := st.view.visible + [CallingMessage(name)] + [Answer(p, name)];
    && r.turns == st.turns + 1 && r.rollbacks == st.rollbacks
    && (if st.turns + 2 == cfg.maxTurns.value
        then r.stage == ForceFinalAwaitAssistant && r.view.visible == shown + cfg.WarningMessages()
        else r.stage == ToolMessagesAwaitAssistant && r.view.visible == shown)
  }

  lemma AnswerArrives(cfg: Config, p: TP.Policy, name: string, st: State, called: State, rejected: set<string>)
    requires Unmeasured(cfg) && Inv(cfg, called) && CallsPending(st, CallingMessage(name), called)
    ensures
      var w := ApplyToolResults(cfg, called, [Answer(p, name)], false, rejected);
      w.error.None? && Inv(cfg, w.st) && Exchanged(cfg, p, name, st, w.st)
  {
    hide Replay, Resolve, ToolWork, Inject, Answers, GenerationCheck, ContextCheckpoint;
    OneResult(cfg, Answer(p, name), name, rejected);
    assert called.pending == [CallOf(name)];
    ToolResultsStep(cfg, called, [Answer(p, name)], false, rejected);
    var w := ToolWork(called, [Answer(p, name)]);
    NoGenerationCheck(cfg, w, true, true);
    if TurnLimitReached(cfg, w.st) {
      InjectEffect(cfg, w, TurnLimit);
    }
  }

  lemma CallingTurn(cfg: Config, p: TP.Policy, name: string, s: RunState)
    requires Unmeasured(cfg) && Roomy(p, s.tools, name) && Running(cfg, s) && Awaiting(s.rt.stage)
    ensures
      var r := Turn(cfg, p, s, Calling(name));
      r.finished.None? && Exchanged(cfg, p, name, s.rt, r.rt) && Roomy(p, r.tools, name)
  {
    hide ApplyAssistant, ApplyToolResults, TP.ExecuteRound, TP.Exhausted, Exchanged, Inv, Tracks, Replay, ToDicts;
    assert Inv(cfg, s.rt);
    var m := CallingMessage(name);
    CallingIsPending(cfg, s.rt, name);
    var called := ApplyAssistant(cfg, s.rt, m, false).st;
    RoundOfOne(p, s.tools, name);
    var outcomes := TP.ExecuteRound(p, s.tools, TP.RequestsFor(p, [CallOf(name)]), Calling(name).world).1;
    var rejected := TP.RejectedIds(outcomes);
    AnswerArrives(cfg, p, name, s.rt, called, rejected);
    InvReports(cfg, ApplyAssistant(cfg, s.rt, m, false), false);
    InvReports(cfg, ApplyToolResults(cfg, called, [Answer(p, name)], false, rejected), false);
  }

  // One recovery.

  lemma ExchangeInSight(cfg: Config, p: TP.Policy, name: string, v: seq<Message>)
    requires Unmeasured(cfg)
    ensures LatestExchange(cfg, v + [CallingMessage(name)] + [Answer(p, name)] + cfg.WarningMessages())
         == 2 + |cfg.WarningMessages()|
  {
    var shown := v + [CallingMessage(name)] + [Answer(p, name)];
    var whole := shown + cfg.WarningMessages();
    assert TrailingPrompt(cfg, whole) == |cfg.WarningMessages()|;
    assert whole[..|whole| - |cfg.WarningMessages()|] == shown;
    assert shown[..|shown| - 1] == v + [CallingMessage(name)];
    assert TrailingResults(v + [CallingMessage(name)]) == 0;
    assert TrailingResults(shown) == 1;
  }

  lemma EmptyTurn(cfg: Config, p: TP.Policy, name: string, s: RunState, v: seq<Message>)
    requires Unmeasured(cfg) && Running(cfg, s) && s.rt.stage == ForceFinalAwaitAssistant
    requires s.rt.view.visible == v + [CallingMessage(name)] + [Answer(p, name)] + cfg.WarningMessages()
    ensures
      var r := Turn(cfg, p, s, EmptyResponseError);
      && r.finished.None? && r.rt.stage == ForceFinalAwaitAssistant
      && r.rt.view.visible == v + cfg.WarningMessages()
  {
    hide RollBackLatestExchange, LatestExchange, Exchanges, Replay, ToDicts;
    ExchangeInSight(cfg, p, name, v);
    EmptyResponseStep(cfg, s.rt, ReasonText(EmptyResponse), EmptyResponse);
    var visible := s.rt.view.visible;
    assert visible[..|v|] == v;
  }

  lemma StillRunning(cfg: Config, p: TP.Policy, s: RunState, e: Event)
    requires Running(cfg, s) && Turn(cfg, p, s, e).finished.None?
    ensures Running(cfg, Turn(cfg, p, s, e)) && s.finished.None?
  {
    hide Turn;
    TurnKeeps(cfg, p, s, e);
  }

}
