/** Task orchestration as an object: it owns the tool manager and the persisted trace, builds a runtime for
    each task, and runs the turn loop, proved against `Orchestration`. */
module TaskOrchestration {
  import opened Messages
  import opened Visibility
  import opened TrackedView
  import opened Stages
  import opened ContextBudget
  import opened RuntimeSpec
  import opened RuntimeLaws
  import RuntimeSteps
  import opened Orchestration
  import opened LoopCap
  import opened Runtime
  import opened ToolManagement
  import TP = ToolPolicy

  class TaskOrchestrator {
    const cfg: Config
    const tools: ToolManager
    var trace: seq<Dict>

    ghost predicate Valid()
      reads this, tools
    {
      cfg.Ok() && tools.Valid()
    }

    constructor (cfg: Config, tools: ToolManager)
      requires cfg.Ok() && tools.Valid()
      ensures Valid() && this.cfg == cfg && this.tools == tools && trace == []
    {
      this.cfg := cfg;
      this.tools := tools;
      trace := [];
    }

    /** The state of a run that uses `runtime`. */
    ghost function Progress(runtime: ConversationRuntime, prompt: seq<Message>, finished: Option<Reason>): RunState
      reads this, tools, runtime, runtime.tracker
    {
      RunState(runtime.Value(), tools.State(), prompt, trace, finished)
    }

    ghost predicate Ready(runtime: ConversationRuntime)
      reads this, tools, runtime, runtime.tracker
    {
      Valid() && runtime.Valid() && runtime.cfg == cfg
    }

    /** Persist the messages of a step. */
    method SyncTrace(appended: seq<Message>)
      modifies this`trace
      ensures trace == old(trace) + ToDicts(appended)
    {
      for i := 0 to |appended|
        invariant trace == old(trace) + ToDicts(appended[..i])
      {
        assert appended[..i + 1] == appended[..i] + [appended[i]];
        ToDictsConcat(appended[..i], [appended[i]]);
        var payload := ToModelMessage(appended[i]);
        trace := trace + [payload];
        assert ToDicts([appended[i]]) == [payload];
      }
      assert appended[..|appended|] == appended;
    }

    /** What follows from a recovery step. */
    method ContinueAfter(runtime: ConversationRuntime, prompt0: seq<Message>, ghost w: Work,
                         result: Outcome<StepResult>, flag: bool, why: Reason)
      returns (prompt: seq<Message>, finished: Option<Reason>)
      requires Ready(runtime) && result == Result(w, flag) && runtime.Value() == w.st
      modifies this`trace
      ensures Progress(runtime, prompt, finished)
           == Continue(old(Progress(runtime, prompt0, None)), w, flag, why)
    {
      hide Result;
      prompt := prompt0;
      match result {
        case Raised(e) =>
          finished := Some(Crashed(e));
        case Ok(step) =>
          SyncTrace(step.appended);
          prompt := step.visible;
          finished := if step.action == CallModel && !flag then None else Some(why);
      }
    }

    method HandleContextLimitError(runtime: ConversationRuntime, prompt0: seq<Message>)
      returns (prompt: seq<Message>, finished: Option<Reason>)
      requires Ready(runtime)
      modifies this, runtime, runtime.tracker
      ensures Ready(runtime)
      ensures Progress(runtime, prompt, finished)
           == Turn(cfg, tools.policy, old(Progress(runtime, prompt0, None)), ContextLimitError)
    {
      hide RecoverFromContextError, Result, Continue;
      ghost var w := RecoverFromContextError(cfg, runtime.Value());
      var flag := runtime.stage == ForceFinalAwaitAssistant;
      var result := runtime.ForceFinalizeAfterContextError();
      prompt, finished := ContinueAfter(runtime, prompt0, w, result, flag, EndedByContextLimit);
      assert Progress(runtime, prompt, finished)
          == Continue(old(Progress(runtime, prompt0, None)).(rt := w.st), w, flag, EndedByContextLimit);
      ContinueFrom(old(Progress(runtime, prompt0, None)), w, flag, EndedByContextLimit);
    }

    method HandleEmptyResponseError(runtime: ConversationRuntime, prompt0: seq<Message>)
      returns (prompt: seq<Message>, finished: Option<Reason>)
      requires Ready(runtime)
      modifies this, runtime, runtime.tracker
      ensures Ready(runtime)
      ensures Progress(runtime, prompt, finished)
           == Turn(cfg, tools.policy, old(Progress(runtime, prompt0, None)), EmptyResponseError)
    {
      hide RollBackLatestExchange, Result, Continue, ReasonText;
      ghost var w := RollBackLatestExchange(cfg, runtime.Value(), ReasonText(EmptyResponse), EmptyResponse);
      var recovered := runtime.RollbackLatestExchangeAndForceFinalize(ReasonText(EmptyResponse), EmptyResponse);
      if recovered.None? {
        return prompt0, Some(EndedByEmptyResponse);
      }
      prompt, finished := ContinueAfter(runtime, prompt0, w.value, recovered.value, false, EndedByEmptyResponse);
      ContinueFrom(old(Progress(runtime, prompt0, None)), w.value, false, EndedByEmptyResponse);
    }

    method RunToolPhase(runtime: ConversationRuntime, prompt0: seq<Message>, calls: seq<ToolCall>,
                        world: nat -> TP.Behaviour)
      returns (prompt: seq<Message>, finished: Option<Reason>)
      requires Ready(runtime)
      modifies this, tools, runtime, runtime.tracker
      ensures Ready(runtime)
      ensures Progress(runtime, prompt, finished)
           == ToolPhase(cfg, tools.policy, old(Progress(runtime, prompt0, None)), calls, world)
    {
      hide ApplyToolResults, TP.ExecuteRound, TP.Exhausted, Result;
      var requests := TP.RequestsFor(tools.policy, calls);
      var outcomes := tools.ExecuteToolCalls(requests, world);
      var exhausted := tools.AllToolsExhausted();
      var result := runtime.ApplyBatchToolMessages(TP.MessagesOf(outcomes), exhausted, TP.RejectedIds(outcomes));
      prompt, finished := prompt0, None;
      match result {
        case Raised(e) =>
          finished := Some(Crashed(e));
        case Ok(step) =>
          SyncTrace(step.appended);
          prompt := step.visible;
      }
    }

    method HandleAnswer(runtime: ConversationRuntime, prompt0: seq<Message>, message: Message, cutShort: bool,
                        world: nat -> TP.Behaviour)
      returns (prompt: seq<Message>, finished: Option<Reason>)
      requires Ready(runtime)
      modifies this, tools, runtime, runtime.tracker
      ensures Ready(runtime)
      ensures
        var s := old(Progress(runtime, prompt0, None));
        Progress(runtime, prompt, finished)
          == AnsweredTurn(cfg, tools.policy, s, s.rt, Response(message, cutShort, None, world))
    {
      hide ApplyAssistant, ToolPhase, Result, DoneReason;
      var result := runtime.ApplyAssistantMessage(message, cutShort);
      match result {
        case Raised(e) =>
          prompt, finished := prompt0, Some(Crashed(e));
        case Ok(step) =>
          SyncTrace(step.appended);
          prompt := step.visible;
          match step.action {
            case ExecuteTools =>
              var calls := if message.HasToolCalls() then message.toolCalls.value else [];
              prompt, finished := RunToolPhase(runtime, prompt, calls, world);
            case Finish =>
              finished := Some(DoneReason(step.stage, step.trigger));
            case CallModel =>
              finished := None;
          }
      }
    }

    /** One turn of the loop. */
    method RunTurn(runtime: ConversationRuntime, prompt0: seq<Message>, e: Event)
      returns (prompt: seq<Message>, finished: Option<Reason>)
      requires Ready(runtime)
      modifies this, tools, runtime, runtime.tracker
      ensures Ready(runtime)
      ensures Progress(runtime, prompt, finished) == Turn(cfg, tools.policy, old(Progress(runtime, prompt0, None)), e)
    {
      hide Observe, AnsweredTurn;
      match e {
        case Response(message, cutShort, inputTokens, world) =>
          runtime.RecordObservedPromptTokens(prompt0, inputTokens);
          prompt, finished := HandleAnswer(runtime, prompt0, message, cutShort, world);
          AnswerFrom(cfg, tools.policy, old(Progress(runtime, prompt0, None)), e);
        case ContextLimitError =>
          prompt, finished := HandleContextLimitError(runtime, prompt0);
        case EmptyResponseError =>
          prompt, finished := HandleEmptyResponseError(runtime, prompt0);
        case OtherModelError =>
          prompt, finished := prompt0, Some(ModelError);
      }
    }

    /** One turn, and the safety limit if it was one too many. */
    method CappedTurn(runtime: ConversationRuntime, prompt0: seq<Message>, e: Event, turns: nat)
      returns (prompt: seq<Message>, finished: Option<Reason>)
      requires Ready(runtime)
      modifies this, tools, runtime, runtime.tracker
      ensures Ready(runtime)
      ensures Progress(runtime, prompt, finished)
           == Cap(cfg, Turn(cfg, tools.policy, old(Progress(runtime, prompt0, None)), e), turns)
      ensures finished.None? ==> turns < SafetyCap(cfg)
    {
      hide Turn;
      prompt, finished := RunTurn(runtime, prompt0, e);
      if turns >= SafetyCap(cfg) && finished.None? {
        finished := Some(SafetyLimit);
      }
    }

    /** Run a task to its end. The result is that of the specified run, and the persisted trace is its trace; unless
        an exception has left the loop, it is the whole log, and replaying it gives the final prompt. */
    method Run(task: Text, events: nat -> Event) returns (reason: Reason, turns: nat, prompt: seq<Message>)
      requires Valid()
      modifies this, tools
      ensures Valid()
      ensures turns > 0
      ensures Capped(cfg, tools.policy, Started(cfg, old(tools.State()), task), events, turns - 1).finished.None?
      ensures
        var end := Capped(cfg, tools.policy, Started(cfg, old(tools.State()), task), events, turns);
        && end.finished == Some(reason) && end.trace == trace && end.prompt == prompt && end.tools == tools.State()
        && (!reason.Crashed? ==>
             prompt == end.rt.view.visible && trace == ToDicts(end.rt.log) && Reloads(trace, prompt))
    {
      hide Turn, Cap, Capped, Started, Reloads;
      ghost var start := Started(cfg, tools.State(), task);
      var runtime := new ConversationRuntime(cfg);
      var opening := Open(runtime, task);
      prompt := opening;
      turns := 0;
      NoTurnYet(cfg, tools.policy, start, events);
      var finished: Option<Reason> := None;
      while finished.None?
        invariant Ready(runtime) && fresh(runtime) && fresh(runtime.tracker)
        invariant Progress(runtime, prompt, finished) == Capped(cfg, tools.policy, start, events, turns)
        invariant finished.None? ==> turns < SafetyCap(cfg)
        invariant if turns == 0 then finished.None?
                  else Capped(cfg, tools.policy, start, events, turns - 1).finished.None?
        decreases finished.None?, SafetyCap(cfg) - turns
      {
        turns := turns + 1;
        OneTurnMore(cfg, tools.policy, start, events, turns);
        prompt, finished := CappedTurn(runtime, prompt, events(turns - 1), turns);
      }
      reason := finished.value;
      CappedReloads(cfg, tools.policy, old(tools.State()), task, events, turns);
    }

    method Open(runtime: ConversationRuntime, task: Text) returns (prompt: seq<Message>)
      requires Ready(runtime) && runtime.Value() == FRESH
      modifies this, tools, runtime, runtime.tracker
      ensures Ready(runtime)
      ensures Progress(runtime, prompt, None) == Started(cfg, old(tools.State()), task)
    {
      hide Initialize;
      InitializeReports(cfg, task);
      tools.ResetTaskState();
      trace := [];
      var result := runtime.InitializeConversation(task);
      SyncTrace(result.value.appended);
      prompt := result.value.visible;
    }
  }

  lemma NoTurnYet(cfg: Config, p: TP.Policy, s: RunState, events: nat -> Event)
    ensures Capped(cfg, p, s, events, 0) == s
  {
  }

  lemma OneTurnMore(cfg: Config, p: TP.Policy, s: RunState, events: nat -> Event, n: nat)
    requires n > 0 && Capped(cfg, p, s, events, n - 1).finished.None?
    ensures Capped(cfg, p, s, events, n) == Cap(cfg, Turn(cfg, p, Capped(cfg, p, s, events, n - 1), events(n - 1)), n)
  {
    hide Turn, Cap;
  }

  lemma CappedReloads(cfg: Config, p: TP.Policy, tools: TP.ToolState, task: Text, events: nat -> Event, n: nat)
    requires cfg.Ok()
    ensures
      var end := Capped(cfg, p, Started(cfg, tools, task), events, n);
      !HasCrashed(end) ==>
        end.prompt == end.rt.view.visible && end.trace == ToDicts(end.rt.log) && Reloads(end.trace, end.prompt)
  {
    hide Turn, Capped, Started, Reloads, Inv, ToDicts, Running;
    var start := Started(cfg, tools, task);
    StartRuns(cfg, tools, task);
    CappedKeeps(cfg, p, start, events, n);
    KeptReloads(cfg, Capped(cfg, p, start, events, n));
  }

  lemma InitializeReports(cfg: Config, task: Text)
    requires cfg.Ok()
    ensures Result(Initialize(cfg, FRESH, task), false).Ok?
  {
    hide Initialize, Inv, Result, RuntimeSteps.Opening;
    RuntimeSteps.InitializeStep(cfg, task);
    RuntimeSteps.InvReports(cfg, Initialize(cfg, FRESH, task), false);
  }

  /** A recovery's outcome does not depend on the runtime state it started from, only on the step. */
  lemma ContinueFrom(s: RunState, w: Work, flag: bool, why: Reason)
    ensures Continue(s.(rt := w.st), w, flag, why) == Continue(s, w, flag, why)
  {
  }

  lemma AnswerFrom(cfg: Config, p: TP.Policy, s: RunState, e: Event)
    requires e.Response?
    ensures
      var rt := Observe(cfg, s.rt, s.prompt, e.inputTokens);
      AnsweredTurn(cfg, p, s.(rt := rt), rt, e.(inputTokens := None)) == AnsweredTurn(cfg, p, s, rt, e)
  {
    hide ApplyAssistant, ApplyToolResults, Observe;
  }

  /** Load a persisted trace: the messages it holds, and the conversation the model last saw. */
  method FromTrace(trace: seq<Dict>) returns (r: Option<(seq<Message>, seq<Message>)>)
    ensures r.None? <==> FromDicts(trace, true).None?
    ensures r.Some? ==> r.value.0 == FromDicts(trace, true).value && r.value.1 == Replay([], r.value.0)
  {
    var conversation := ConversationDictsToMessages(trace, true);
    if conversation.None? {
      return None;
    }
    var visible := MaterializeVisibleConversation(conversation.value);
    return Some((conversation.value, visible));
  }
}
