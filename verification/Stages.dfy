/** Conversation stages, the transition table, and the action each stage asks of the orchestrator. */
module Stages {
  import opened Messages

  datatype Stage =
    | NotInitialized
    | SystemMessageSet
    | InitialAwaitAssistant
    | ToolMessagesAwaitAssistant
    | AssistantReceived
    | ToolCallsAwaitTool
    | FinalPromptAwaitAssistant
    | FormatErrorAwaitAssistant
    | AssistantRollback
    | ContextLimitRollback
    | ForceFinalAwaitAssistant
    | Completed
    | ForceCompleted
    | ToolCallsRejected
    | TokenExceeded

  datatype Action = CallModel | ExecuteTools | Finish

  /** The transition table. */
  function Next(s: Stage): set<Stage> {
    match s
    case NotInitialized => {SystemMessageSet, InitialAwaitAssistant}
    case SystemMessageSet => {InitialAwaitAssistant}
    case InitialAwaitAssistant => {AssistantReceived, ForceFinalAwaitAssistant}
    case ToolMessagesAwaitAssistant =>
      {AssistantReceived, ContextLimitRollback, ForceFinalAwaitAssistant, TokenExceeded}
    case AssistantReceived =>
      {ToolCallsAwaitTool, FormatErrorAwaitAssistant, FinalPromptAwaitAssistant, ForceFinalAwaitAssistant,
       Completed, ForceCompleted, ToolCallsRejected, TokenExceeded, AssistantRollback}
    case ToolCallsAwaitTool => {ToolMessagesAwaitAssistant, AssistantRollback}
    case FormatErrorAwaitAssistant => {AssistantReceived, ForceFinalAwaitAssistant}
    case FinalPromptAwaitAssistant => {AssistantReceived, ForceFinalAwaitAssistant}
    case ContextLimitRollback => {ForceFinalAwaitAssistant, TokenExceeded}
    case AssistantRollback => {ToolMessagesAwaitAssistant, InitialAwaitAssistant}
    case ForceFinalAwaitAssistant => {AssistantReceived, ContextLimitRollback}
    case Completed => {}
    case ForceCompleted => {}
    case ToolCallsRejected => {}
    case TokenExceeded => {}
  }

  /** The orchestrator's next action; None for a runtime-internal stage. */
  function ActionOf(s: Stage): Option<Action> {
    match s
    case InitialAwaitAssistant => Some(CallModel)
    case ToolMessagesAwaitAssistant => Some(CallModel)
    case FormatErrorAwaitAssistant => Some(CallModel)
    case FinalPromptAwaitAssistant => Some(CallModel)
    case ForceFinalAwaitAssistant => Some(CallModel)
    case ToolCallsAwaitTool => Some(ExecuteTools)
    case Completed => Some(Finish)
    case ForceCompleted => Some(Finish)
    case ToolCallsRejected => Some(Finish)
    case TokenExceeded => Some(Finish)
    case _ => None
  }

  const CHECKPOINTS: set<Stage> :=
    {ToolMessagesAwaitAssistant, AssistantReceived, ToolCallsAwaitTool, FinalPromptAwaitAssistant,
     FormatErrorAwaitAssistant}

  /** Consecutive stages are transitions of the table. */
  ghost predicate IsPath(path: seq<Stage>) {
    forall i :: 0 <= i < |path| - 1 ==> path[i + 1] in Next(path[i])
  }

  ghost predicate PathFrom(path: seq<Stage>, first: Stage, last: Stage) {
    path != [] && path[0] == first && path[|path| - 1] == last && IsPath(path)
  }

  lemma PathSnoc(path: seq<Stage>, first: Stage, last: Stage, next: Stage)
    requires PathFrom(path, first, last) && next in Next(last)
    ensures PathFrom(path + [next], first, next)
  {
  }

  /** The action table fits the transition table: the run stops exactly at the dead ends, every stage
      that calls the model can take its answer, and tool results are accepted only where tools run. */
  lemma ActionsFitTransitions(s: Stage)
    ensures ActionOf(s) == Some(Finish) <==> Next(s) == {}
    ensures ActionOf(s) == Some(CallModel) <==> AssistantReceived in Next(s)
    ensures ActionOf(s) == Some(ExecuteTools) <==> ToolMessagesAwaitAssistant in Next(s) && s != AssistantRollback
  {
  }
}
