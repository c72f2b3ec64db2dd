/** Whole conversations: any sequence of runtime calls that follows the returned actions. */
module RuntimeRuns {
  import opened Messages
  import opened Markers
  import opened Visibility
  import opened TrackedView
  import opened SftExport
  import opened Stages
  import opened ContextBudget
  import opened ToolAnswers
  import opened RuntimeSpec
  import opened RuntimeLaws
  import opened RuntimeSteps

  // ---------- Four replays, one conversation ----------

  /** The view after a log that was appended in batches. */
  function ViewBatches(v: View, batches: seq<seq<Message>>): View {
    if batches == [] then v else ViewReplay(ViewBatches(v, batches[..|batches| - 1]), batches[|batches| - 1])
  }

  lemma {:induction false} ViewBatchesVisible(v: View, batches: seq<seq<Message>>)
    ensures ViewBatches(v, batches).visible == Replay(v.visible, Flatten(batches))
  {
    if batches != [] {
      var n := |batches| - 1;
      ViewBatchesVisible(v, batches[..n]);
      ViewReplayVisible(ViewBatches(v, batches[..n]), batches[n]);
      ReplayConcat(v.visible, Flatten(batches[..n]), batches[n]);
    }
  }

  /** For every log, with any markers in it and however it was cut into batches: the live index, its rebuild
      from the log, the replay of the loaded trace and the SFT export show the same conversation (the loaded
      trace up to empty tool-call lists, the export in dictionary form). */
  lemma {:induction false} ReplaysAgree(batches: seq<seq<Message>>)
    ensures
      var log := Flatten(batches);
      var shown := Replay([], log);
      && ViewBatches(EMPTY, batches).visible == shown
      && ViewReplay(EMPTY, log).visible == shown
      && FromDicts(ToDicts(log), true).Some?
      && Replay([], FromDicts(ToDicts(log), true).value) == NormalAll(shown)
      && ReplayDicts(ToDicts(log)) == ToDicts(shown)
  {
    hide Replay, FromDicts, ToDicts, ReplayDicts;
    var log := Flatten(batches);
    ViewBatchesVisible(EMPTY, batches);
    ViewReplayVisible(EMPTY, log);
    TraceReplays(log);
    ReplayDictsAgrees(log);
  }

  // ---------- Calls ----------

  /** A call on an initialized runtime: its steps, and what callers do between steps, which is to append the marker
      of a compaction or a discard, or to reopen the runtime after an external context reset. */
  datatype Call =
    | Answer(message: Message, cutShort: bool)
    | Results(results: seq<Message>, exhausted: bool, rejected: set<string>)
    | ContextError
    | GiveUpExchange(reason: string, trigger: Trigger)
    | DiscardCalls(reason: string)
    | Observed(visible: seq<Message>, inputTokens: Option<int>)
    | ResetCounter
    | Mark(marker: Message)
    | Reopen

  /** The call fits the action that the last step returned; and a reopened runtime must have a turn left. */
  predicate Allowed(cfg: Config, st: State, c: Call) {
    match c
    case Answer(m, _) => ActionOf(st.stage) == Some(CallModel) && m.role == Assistant
    case Results(results, _, _) =>
      ActionOf(st.stage) == Some(ExecuteTools) && Answers(results, st.pending) && AllTool(results)
    case ContextError => ActionOf(st.stage) == Some(CallModel)
    case GiveUpExchange(_, _) => ActionOf(st.stage) == Some(CallModel)
    case DiscardCalls(_) => ActionOf(st.stage) == Some(ExecuteTools)
    case Observed(_, _) => true
    case ResetCounter => true
    case Mark(m) => ActionOf(st.stage) == Some(CallModel) && m.role == Runtime
    case Reopen => ActionOf(st.stage) == Some(CallModel) && TurnLeft(cfg, st)
  }

  predicate TurnLeft(cfg: Config, st: State) {
    cfg.maxTurns.Some? ==> st.turns + 1 < cfg.maxTurns.value
  }

  /** A call as a step; a call that declines changes nothing. */
  function Do(cfg: Config, st: State, c: Call): (w: Work)
    ensures Tracks(w) && w.base.log == st.log && (!c.Reopen? ==> w.base.stage == st.stage)
    ensures !c.Observed? ==> w.base.view == st.view
  {
    match c
    case Answer(m, cutShort) => ApplyAssistant(cfg, st, m, cutShort)
    case Results(results, exhausted, rejected) => ApplyToolResults(cfg, st, results, exhausted, rejected)
    case ContextError => RecoverFromContextError(cfg, st)
    case GiveUpExchange(reason, trigger) =>
      var r := RollBackLatestExchange(cfg, st, reason, trigger); if r.Some? then r.value else Begin(st)
    case DiscardCalls(reason) => var r := RollBackToolCalls(cfg, st, reason); if r.Some? then r.value else Begin(st)
    case Observed(visible, tokens) => Begin(Observe(cfg, st, visible, tokens))
    case ResetCounter => Begin(st.(rollbacks := 0))
    case Mark(m) => Append(Begin(st), [m])
    case Reopen => Begin(Reopened(st))
  }

  /** The allowed calls that raise: an answer that meets an empty final-response prompt, and a context error with
      a generation minimum and no way out. */
  predicate Raises(cfg: Config, st: State, c: Call) {
    match c
    case Answer(m, cutShort) => AnswerRaises(cfg, st, m, cutShort)
    case ContextError => RecoveryRaises(cfg, st)
    case _ => false
  }

  /** An allowed call keeps the invariant, and raises exactly where `Raises` says so. */
  lemma CallKeeps(cfg: Config, st: State, c: Call)
    requires Inv(cfg, st) && Allowed(cfg, st, c)
    ensures
      var w := Do(cfg, st, c);
      && (w.error.None? ==> Inv(cfg, w.st))
      && (w.error.Some? <==> Raises(cfg, st, c))
  {
    hide Inv, ApplyAssistant, ApplyToolResults, RecoverFromContextError, RollBackLatestExchange, RollBackToolCalls,
      Observe, Append, Reopened, RecoveryRaises, AnswerRaises, AnswerEffect, ResultsEffect;
    assert st.stage == ToolCallsAwaitTool <==> ActionOf(st.stage) == Some(ExecuteTools);
    match c
    case Answer(m, cutShort) =>
      AssistantStep(cfg, st, m, cutShort);
      AnswerRaisesExactly(cfg, st, m, cutShort);
    case Results(results, exhausted, rejected) => ToolResultsStep(cfg, st, results, exhausted, rejected);
    case ContextError => ContextErrorStep(cfg, st);
    case GiveUpExchange(reason, trigger) => EmptyResponseStep(cfg, st, reason, trigger);
    case DiscardCalls(reason) =>
      DiscardDeclines(cfg, st, reason);
      if MayRollBack(cfg, st) {
        DiscardKeeps(cfg, st, reason);
      }
    case Observed(visible, tokens) => ObservedKeeps(cfg, st, visible, tokens);
    case ResetCounter => ResetKeeps(cfg, st);
    case Mark(m) => MarkKeeps(cfg, st, m);
    case Reopen => ReopenedKeeps(cfg, st);
  }

  lemma ObservedKeeps(cfg: Config, st: State, visible: seq<Message>, tokens: Option<int>)
    requires Inv(cfg, st)
    ensures Inv(cfg, Observe(cfg, st, visible, tokens))
  {
  }

  lemma ResetKeeps(cfg: Config, st: State)
    requires Inv(cfg, st)
    ensures Inv(cfg, st.(rollbacks := 0))
  {
  }

  /** A marker of any kind, even a malformed one, changes at most what is visible. */
  lemma MarkKeeps(cfg: Config, st: State, m: Message)
    requires Inv(cfg, st) && ActionOf(st.stage) == Some(CallModel) && m.role == Runtime
    ensures
      var w := Append(Begin(st), [m]);
      w.error.None? && Inv(cfg, w.st)
  {
    hide ViewReplay, Replay;
    TrackedVisible(Append(Begin(st), [m]));
  }

  lemma ReopenedKeeps(cfg: Config, st: State)
    requires Inv(cfg, st) && TurnLeft(cfg, st)
    ensures Inv(cfg, Reopened(st))
  {
    hide Replay;
  }

  // ---------- Conversations ----------

  /** A conversation so far: the state, everything the calls appended, the stages passed since it began or was last
      reopened, and whether every call was allowed and returned. */
  datatype History = History(st: State, reported: seq<Message>, path: seq<Stage>, sound: bool)

  function Begun(cfg: Config, prompt: Text): History {
    var w := Initialize(cfg, FRESH, prompt);
    History(w.st, w.appended, w.path, w.error.None?)
  }

  /** Make one more call. */
  function Called(cfg: Config, h: History, c: Call): History {
    var w := Do(cfg, h.st, c);
    var path := if c.Reopen? then w.path else h.path + w.path[1..];
    History(w.st, h.reported + w.appended, path, h.sound && Allowed(cfg, h.st, c) && w.error.None?)
  }

  /** Make more calls. */
  function Continued(cfg: Config, h: History, calls: seq<Call>): History {
    if calls == [] then h else Called(cfg, Continued(cfg, h, calls[..|calls| - 1]), calls[|calls| - 1])
  }

  function Conversation(cfg: Config, prompt: Text, calls: seq<Call>): History {
    Continued(cfg, Begun(cfg, prompt), calls)
  }

  lemma PathsJoin(a: seq<Stage>, b: seq<Stage>, first: Stage, mid: Stage, last: Stage)
    requires PathFrom(a, first, mid) && PathFrom(b, mid, last)
    ensures PathFrom(a + b[1..], first, last)
  {
  }

  /** What was passed is a path of the table, and what was reported is what the log has gained. */
  ghost predicate Accounted(h: History, from: Stage, log: seq<Message>) {
    PathFrom(h.path, from, h.st.stage) && h.st.log == log + h.reported
  }

  /** The stage at which the last leg of a conversation began. */
  function LegStart(from: Stage, calls: seq<Call>): Stage {
    if Reopen in calls then InitialAwaitAssistant else from
  }

  lemma CalledTracks(cfg: Config, h: History, c: Call, from: Stage, log: seq<Message>)
    requires Accounted(h, from, log)
    ensures Accounted(Called(cfg, h, c), if c.Reopen? then InitialAwaitAssistant else from, log)
  {
    ReopenRestarts(cfg, h.st);
    hide Do;
    var w := Do(cfg, h.st, c);
    if !c.Reopen? {
      PathsJoin(h.path, w.path, from, h.st.stage, w.st.stage);
    }
  }

  lemma ReopenRestarts(cfg: Config, st: State)
    ensures PathFrom(Do(cfg, st, Reopen).path, InitialAwaitAssistant, Do(cfg, st, Reopen).st.stage)
  {
  }

  lemma {:induction false} ContinuedKeeps(cfg: Config, h: History, calls: seq<Call>, from: Stage, log: seq<Message>)
    requires Accounted(h, from, log) && (h.sound ==> Inv(cfg, h.st))
    ensures
      var r := Continued(cfg, h, calls);
      && Accounted(r, LegStart(from, calls), log) && (r.sound ==> h.sound && Inv(cfg, r.st))
  {
    hide Inv, Do, Accounted;
    if calls != [] {
      var n := |calls| - 1;
      ContinuedKeeps(cfg, h, calls[..n], from, log);
      var before := Continued(cfg, h, calls[..n]);
      CalledTracks(cfg, before, calls[n], LegStart(from, calls[..n]), log);
      if before.sound && Allowed(cfg, before.st, calls[n]) {
        CallKeeps(cfg, before.st, calls[n]);
      }
    }
  }

  /** Over any sequence of calls: while each was allowed by the action returned before it and none raised, the
      invariant holds (turn bound, pending calls, recorded triggers, and a prompt that is the replay of the
      log); the stages passed since the last reopening are a path of the transition table; and what the calls
      appended is the log. */
  lemma EveryConversationKeeps(cfg: Config, prompt: Text, calls: seq<Call>)
    requires cfg.Ok()
    ensures
      var h := Conversation(cfg, prompt, calls);
      && PathFrom(h.path, LegStart(NotInitialized, calls), h.st.stage)
      && h.reported == h.st.log
      && (h.sound ==> Inv(cfg, h.st))
  {
    hide Inv, Do, Begun, Continued;
    BegunKeeps(cfg, prompt);
    BegunTracks(cfg, prompt);
    ContinuedKeeps(cfg, Begun(cfg, prompt), calls, NotInitialized, []);
    var h := Conversation(cfg, prompt, calls);
    assert [] + h.reported == h.reported;
  }

  lemma BegunKeeps(cfg: Config, prompt: Text)
    requires cfg.Ok()
    ensures Begun(cfg, prompt).sound && Inv(cfg, Begun(cfg, prompt).st)
  {
    hide Inv, Initialize, Opening;
    InitializeStep(cfg, prompt);
  }

  lemma BegunTracks(cfg: Config, prompt: Text)
    ensures Accounted(Begun(cfg, prompt), NotInitialized, [])
  {
    hide Initialize;
  }

  /** Every call follows the action returned before it. */
  predicate FollowsActions(cfg: Config, prompt: Text, calls: seq<Call>) {
    calls == [] ||
    (var n := |calls| - 1;
     FollowsActions(cfg, prompt, calls[..n]) && Allowed(cfg, Conversation(cfg, prompt, calls[..n]).st, calls[n]))
  }

  /** Without a generation minimum to measure and with a usable final-response prompt, no allowed call ever raises. */
  lemma {:induction false} SafeConversationsNeverRaise(cfg: Config, prompt: Text, calls: seq<Call>)
    requires cfg.Ok() && !cfg.MayStop() && cfg.finalPrompt != Some("")
    requires FollowsActions(cfg, prompt, calls)
    ensures Conversation(cfg, prompt, calls).sound
  {
    hide Inv, Do, Begun, Allowed, AnswerEffect;
    if calls == [] {
      BegunKeeps(cfg, prompt);
    } else {
      var n := |calls| - 1;
      SafeConversationsNeverRaise(cfg, prompt, calls[..n]);
      EveryConversationKeeps(cfg, prompt, calls[..n]);
      CallKeeps(cfg, Conversation(cfg, prompt, calls[..n]).st, calls[n]);
    }
  }

  /** A conversation so far has reported its whole log; one more allowed call either raises or reports: the messages
      reported so far, with the new ones, replay to the reported prompt, and the reported action says which calls
      fit next: an answer, or results for calls that are pending, or nothing. */
  lemma EveryCallReports(cfg: Config, prompt: Text, calls: seq<Call>, c: Call)
    requires cfg.Ok() && Conversation(cfg, prompt, calls).sound
    requires Allowed(cfg, Conversation(cfg, prompt, calls).st, c)
    requires !Raises(cfg, Conversation(cfg, prompt, calls).st, c)
    ensures
      var h := Conversation(cfg, prompt, calls);
      var w := Do(cfg, h.st, c);
      var r := Result(w, false);
      && r.Ok?
      && r.value.full == h.reported + r.value.appended
      && r.value.visible == Replay([], h.reported + r.value.appended)
      && (r.value.action == ExecuteTools <==> w.st.pending != [])
      && (forall m: Message, cutShort :: m.role == Assistant ==>
           (Allowed(cfg, w.st, Answer(m, cutShort)) <==> r.value.action == CallModel))
  {
    hide Do, Conversation, Replay, Raises, AnswerEffect;
    EveryConversationKeeps(cfg, prompt, calls);
    var h := Conversation(cfg, prompt, calls);
    CallKeeps(cfg, h.st, c);
    InvReports(cfg, Do(cfg, h.st, c), false);
  }

  // ---------- The anchor over a conversation ----------

  /** No call but an observation detaches a surviving anchor from the messages it was taken on, or sets one. */
  lemma StepKeepsAnchor(cfg: Config, st: State, c: Call, a: Anchor, prefix: seq<Message>)
    requires !c.Observed? && Covers(st.view, a, prefix)
    ensures Covers(Do(cfg, st, c).st.view, a, prefix)
    ensures Do(cfg, st, c).st.view.anchor in {None, st.view.anchor}
  {
    var w := Do(cfg, st, c);
    AnchorKeepsItsPrefix(w.base.view, a, prefix, w.appended);
  }

  /** What was visible before the call number `i` of a conversation. */
  function ShownBefore(cfg: Config, prompt: Text, calls: seq<Call>, i: nat): seq<Message>
    requires i <= |calls|
  {
    Conversation(cfg, prompt, calls[..i]).st.view.visible
  }

  /** The anchor in force was taken by the call number `i`: a count of the provider for the prompt visible then, which
      still heads what is visible now. */
  ghost predicate TakenBy(cfg: Config, prompt: Text, calls: seq<Call>, i: nat, v: View) {
    && i < |calls| && calls[i].Observed? && calls[i].inputTokens.Some? && calls[i].inputTokens.value > 0
    && var prefix := ShownBefore(cfg, prompt, calls, i);
       calls[i].visible == prefix && prefix <= v.visible
       && v.anchor == Some(Anchor(
            |prefix|,
            Cost(cfg.TrackerEstimator(), prefix) + Cost(cfg.TrackerEstimator(), cfg.Probe()),
            calls[i].inputTokens.value))
  }

  lemma BegunUnanchored(cfg: Config, prompt: Text)
    ensures Begun(cfg, prompt).st.view.anchor.None?
  {
    hide Initialize;
    var w := Initialize(cfg, FRESH, prompt);
    AnchorKeepsItsPrefix(EMPTY, Anchor(0, 0, 0), [], w.appended);
  }

  lemma StillTaken(cfg: Config, prompt: Text, calls: seq<Call>, c: Call, i: nat)
    requires TakenBy(cfg, prompt, calls, i, Conversation(cfg, prompt, calls).st.view)
    requires !c.Observed? && Conversation(cfg, prompt, calls + [c]).st.view.anchor.Some?
    ensures TakenBy(cfg, prompt, calls + [c], i, Conversation(cfg, prompt, calls + [c]).st.view)
  {
    hide Do, Begun;
    var before := Conversation(cfg, prompt, calls).st;
    assert (calls + [c])[..|calls|] == calls;
    assert (calls + [c])[..i] == calls[..i];
    StepKeepsAnchor(cfg, before, c, before.view.anchor.value, ShownBefore(cfg, prompt, calls, i));
  }

  lemma NewlyTaken(cfg: Config, prompt: Text, calls: seq<Call>, c: Call)
    requires c.Observed?
    requires Do(cfg, Conversation(cfg, prompt, calls).st, c).st.view != Conversation(cfg, prompt, calls).st.view
    ensures TakenBy(cfg, prompt, calls + [c], |calls|, Conversation(cfg, prompt, calls + [c]).st.view)
  {
    hide Do, Conversation;
    OneMore(cfg, prompt, calls, c);
    assert (calls + [c])[..|calls|] == calls;
    ObservationAnchors(cfg, Conversation(cfg, prompt, calls).st, c);
  }

  lemma NoStepAnchors(cfg: Config, st: State, c: Call)
    requires !c.Observed? && st.view.anchor.None?
    ensures Do(cfg, st, c).st.view.anchor.None?
  {
    hide Do;
    StepKeepsAnchor(cfg, st, c, Anchor(0, 0, 0), []);
  }

  /** At every point of every conversation an anchor in force was taken by one of its calls, on what was visible at
      that call, and those messages still head what is visible. */
  lemma {:induction false} EveryAnchorIsCovered(cfg: Config, prompt: Text, calls: seq<Call>)
    requires Conversation(cfg, prompt, calls).st.view.anchor.Some?
    ensures exists i :: TakenBy(cfg, prompt, calls, i, Conversation(cfg, prompt, calls).st.view)
  {
    hide Do, Begun, Called, Continued, TakenBy;
    if calls == [] {
      BegunUnanchored(cfg, prompt);
      NothingCalled(cfg, prompt);
    } else {
      var init, c := calls[..|calls| - 1], calls[|calls| - 1];
      assert calls == init + [c];
      OneMore(cfg, prompt, init, c);
      var before := Conversation(cfg, prompt, init).st;
      if c.Observed? && Do(cfg, before, c).st.view != before.view {
        NewlyTaken(cfg, prompt, init, c);
      } else if c.Observed? {
        EveryAnchorIsCovered(cfg, prompt, init);
        var i :| TakenBy(cfg, prompt, init, i, before.view);
        TakenLonger(cfg, prompt, init, c, i, before.view);
      } else {
        if before.view.anchor.None? {
          NoStepAnchors(cfg, before, c);
        }
        EveryAnchorIsCovered(cfg, prompt, init);
        var i :| TakenBy(cfg, prompt, init, i, before.view);
        StillTaken(cfg, prompt, init, c, i);
      }
    }
  }

  lemma NothingCalled(cfg: Config, prompt: Text)
    ensures Conversation(cfg, prompt, []) == Begun(cfg, prompt)
  {
  }

  lemma OneMore(cfg: Config, prompt: Text, calls: seq<Call>, c: Call)
    ensures Conversation(cfg, prompt, calls + [c]).st == Do(cfg, Conversation(cfg, prompt, calls).st, c).st
  {
    hide Do;
    assert (calls + [c])[..|calls|] == calls;
  }

  lemma TakenLonger(cfg: Config, prompt: Text, calls: seq<Call>, c: Call, i: nat, v: View)
    requires TakenBy(cfg, prompt, calls, i, v)
    ensures TakenBy(cfg, prompt, calls + [c], i, v)
  {
    hide Conversation;
    assert (calls + [c])[..i] == calls[..i];
  }

  lemma ObservationAnchors(cfg: Config, st: State, c: Call)
    requires c.Observed? && Do(cfg, st, c).st.view != st.view
    ensures c.inputTokens.Some? && c.inputTokens.value > 0
    ensures c.visible == st.view.visible == Do(cfg, st, c).st.view.visible
    ensures Do(cfg, st, c).st.view.anchor == Some(Anchor(
              |st.view.visible|, RawEstimate(cfg.TrackerEstimator(), st.view, cfg.Probe()), c.inputTokens.value))
  {
  }

  /** So an estimate made at any point of a conversation is the count of the provider for the prompt at that call, plus
      the calibrated cost of what has been added since. */
  lemma AnchoredConversation(cfg: Config, prompt: Text, calls: seq<Call>, i: nat, extra: seq<Message>)
    requires cfg.Ok() && TakenBy(cfg, prompt, calls, i, Conversation(cfg, prompt, calls).st.view)
    ensures
      var est, v := cfg.TrackerEstimator(), Conversation(cfg, prompt, calls).st.view;
      var prefix := ShownBefore(cfg, prompt, calls, i);
      Estimate(est, v, extra + cfg.Probe())
        == calls[i].inputTokens.value + CalibrateTokens(Cost(est, v.visible[|prefix|..]) + Cost(est, extra), v.ratio)
  {
    hide Conversation, CalibrateTokens, Cost;
    var est, v := cfg.TrackerEstimator(), Conversation(cfg, prompt, calls).st.view;
    var prefix := ShownBefore(cfg, prompt, calls, i);
    assert v.visible == prefix + v.visible[|prefix|..];
    CostSplits(est, prefix, v.visible[|prefix|..]);
    CostSplits(est, extra, cfg.Probe());
  }

  // ---------- Reopening ----------

  /** A runtime reopened after an external context reset, and nothing called yet. */
  function Resumed(st: State): History {
    History(Reopened(st), [], [InitialAwaitAssistant], true)
  }

  /** Call a tool, answer the call, call again. */
  function Rush(): seq<Call> {
    [Answer(CallingMessage("tool"), false), Results([RushResult()], false, {}), Answer(CallingMessage("tool"), false)]
  }

  function RushResult(): Message {
    ToolMessage(Plain(""), "call", "tool")
  }

  lemma {:induction false} RushPasses(cfg: Config, st: State)
    requires st.log != [] && !cfg.MayStop()
    ensures
      var h := Continued(cfg, Resumed(st), Rush());
      h.sound && h.st.turns == st.turns + 2
  {
    hide ApplyAssistant, ApplyToolResults, Continued, Answers;
    var start, calls := Resumed(st), Rush();
    ThreeCalls(cfg, start, calls[0], calls[1], calls[2]);
    var h1 := Called(cfg, start, calls[0]);
    var h2 := Called(cfg, h1, calls[1]);
    CallGoesThrough(cfg, start.st, "tool");
    OneResult(cfg, RushResult(), "tool", {});
    ResultGoesThrough(cfg, h1.st, "tool", RushResult());
    CallGoesThrough(cfg, h2.st, "tool");
  }

  lemma {:induction false} ThreeCalls(cfg: Config, h: History, a: Call, b: Call, c: Call)
    ensures Continued(cfg, h, [a, b, c]) == Called(cfg, Called(cfg, Called(cfg, h, a), b), c)
  {
    hide Called;
    assert [a, b, c][..2] == [a, b] && [a, b][..1] == [a] && [a][..0] == [];
    assert Continued(cfg, h, [a]) == Called(cfg, h, a);
  }

  /** Where no generation minimum can stop it, a reopened runtime stays within the turn limit over every allowed
      continuation exactly if it had a turn left before the last permitted one; otherwise the turn-limit test,
      which looks for equality, has already been passed by, and three calls are enough to go over. */
  lemma {:induction false} ReopenKeepsTurnLimit(cfg: Config, st: State)
    requires Inv(cfg, st) && cfg.maxTurns.Some? && !cfg.MayStop()
    ensures
      (forall calls :: var h := Continued(cfg, Resumed(st), calls); h.sound ==> h.st.turns <= cfg.maxTurns.value)
      <==> st.turns + 1 < cfg.maxTurns.value
  {
    hide Continued;
    if st.turns + 1 < cfg.maxTurns.value {
      forall calls ensures var h := Continued(cfg, Resumed(st), calls); h.sound ==> h.st.turns <= cfg.maxTurns.value {
        ReopenStaysWithin(cfg, st, calls);
      }
    } else {
      RushPasses(cfg, st);
      var h := Continued(cfg, Resumed(st), Rush());
      assert h.sound && h.st.turns > cfg.maxTurns.value;
    }
  }

  /** With a turn left, reopening is safe under every configuration. */
  lemma {:induction false} ReopenStaysWithin(cfg: Config, st: State, calls: seq<Call>)
    requires Inv(cfg, st) && TurnLeft(cfg, st)
    ensures
      var h := Continued(cfg, Resumed(st), calls);
      h.sound ==> Inv(cfg, h.st)
  {
    hide Continued, Replay;
    ReopenedKeeps(cfg, st);
    assert Accounted(Resumed(st), InitialAwaitAssistant, st.log);
    ContinuedKeeps(cfg, Resumed(st), calls, InitialAwaitAssistant, st.log);
  }
}
