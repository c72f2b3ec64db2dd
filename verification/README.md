# Verification of the conversation runtime

A Dafny model of the append-only conversation runtime, its incremental context index, the orchestrator loop that
drives it, the tool manager's execution policy, and the request logger's writer protocol, with proofs of what
they promise. `dafny verify dfyconfig.toml` checks the whole project.

## What is modelled

- `Messages`, `Markers`: messages, the dictionary form of traces, runtime markers with their parsers and splices.
- `Visibility`, `SftExport`: the reference replay of a log, and the two replays that run over finished traces.
- `TrackedView`, `ContextLengthTracker`: the incremental index of segments with cached counts, calibration and
  anchor, as an abstract view and as a class proved against it.
- `Stages`, `ContextBudget`, `ToolAnswers`: the stage machine, the token budgets, and the matching and merging of
  tool results.
- `RuntimeSpec`: every runtime step as a function on the runtime's state. A step in progress carries the state it
  began in, the stages passed, the messages appended and the exception raised, if any; every one of these functions
  is proved to keep that bookkeeping exact.
- `ConversationRuntime`: the runtime as a class; each method's effect equals its function in `RuntimeSpec`.
- `RuntimeLaws`, `RuntimeSteps`, `RuntimeRuns`: what every step keeps and undoes, and whole conversations.
- `RuntimeTables`, `RunTables`: what every step and every turn does, as flat tables over the configuration and the
  messages that share no definition with the steps, and the proof that the steps do just that.
- `ToolPolicy`, `ToolHistory`, `ToolManager`: the execution policy as functions, their laws, the same policy decided
  from a plain log of the task, and the class proved against them.
- `Orchestration`, `DeadEnd`, `TaskOrchestrator`: one turn, whole runs and their termination, concrete runs that crash,
  and the orchestrator as a class.
- `LoopCap`, `LongestRun`: the loop's safety cap, how long a run can take exactly, and so when the cap fires.
- `RequestLogger`: all interleavings of producers, `close` and the writer, and the logger as a class.

## Hypotheses

- The base runtime class is modelled: subclass hooks return their defaults.
- A token estimator that is declared additive is non-negative and adds up over concatenation, as the index asks of
  its callers; other estimators are arbitrary functions. Ratios are exact reals, and `int()` on them truncates.
- The limits that configuration loading enforces hold (`max_turns` at least 1, margins and minima not negative).
- JSON is an abstract invertible codec: a text either encodes one value or does not decode. Model answers, token
  counts, tool outcomes, argument repair and keyword detection are arbitrary inputs.
- Runs of the orchestrator never append markers between turns, reopen a runtime or reset its rollback counter, as in
  the base orchestrator. Conversations of single calls may do all three; a runtime reopened there has a turn left, and
  what happens without one is stated on its own.

## What the proofs found

- The loop's safety cap can end a run that is still making progress. With the default configuration and `max_turns` of
  202 or more, a model that calls tools in every permitted turn reaches the runtime's own turn limit, as the comment at
  agentic/orchestration/task_orchestrator.py:353-357 intends; but if it then keeps returning nothing, each recovery takes
  back one exchange, and the cap comes first. `LongestRun.CapFiresExactly` gives the exact condition.
- The turn limit is an equality test. It is never missed in a run (`Orchestration.TurnsStayBounded`), but reopening at
  the last permitted turn steps past it (`RuntimeRuns.ReopenKeepsTurnLimit`).
- Recovery from a context-length error raises in exactly one situation (`RuntimeSteps.ContextErrorStep`), and so does an
  answer: when an empty (but configured) final-response prompt is due (`RuntimeLaws.AnswerRaisesExactly`). Both can
  happen on the first turn of a run (`DeadEnd.NoRoomCrashes`, `DeadEnd.EmptyPromptCrashes`).
- With a generation minimum, a tool phase can leave the runtime at a terminal stage without telling the loop, exactly as
  `RuntimeSteps.ResultsStopExactly` says; the next answer or recovery then raises (`Orchestration.DeadEndCrashes`,
  `DeadEnd.DeadEndIsReached`). `Orchestration.TurnKeeps` lists all modelled events on
  which a run crashes.
- The limit on repeated arguments compares arguments that were repaired once more than the stored ones. For the
  orchestrator, which repairs requests before the manager does, it holds when repairing three times is repairing twice;
  for callers that do not, when repairing twice is repairing once; otherwise it can be outrun
  (`ToolPolicy.RunLimitIsExact`).
- A call with an empty id can never be answered (`ToolPolicy.BatchFits`), and merging drops empty ids
  (`ToolAnswers.AggregationKeepsAnswers`).
- A record that cannot be encoded ends the logger's writer: later records are lost and the manifest stays open
  (`RequestLogging.CloseDelivers`, `RequestLogging.ClosedManifestIsComplete`).
- agentic/config/models.py:155-158 says that the rollback counter resets after a successful turn; the code resets it
  only when a text answer is accepted, not after tool calls, and the model follows the code.

## Model

Class methods without a row are the source's private helpers, each proved equal to the function of its step in
`RuntimeSpec`, `ToolPolicy`, `Orchestration` or `RequestLogging`.

| member | source | states |
|---|---|---|
| `RuntimeRuns.ReplaysAgree` | agentic/conversations/conversation_runtime.py:997-1067 | For every log, with any markers (malformed and stale ones included) and every way of cutting it into append batches: the live index, its full rebuild, the replay of the loaded trace and the SFT export show the same conversation; the loaded trace up to empty tool-call lists, the export in dictionary form |
| `Visibility.ReplayConcat` | agentic/conversations/conversation_runtime.py:1008-1009 | Replaying two logs one after the other is replaying their concatenation, so incremental append and full rebuild agree |
| `Visibility.BatchesDoNotMatter` | agentic/conversations/conversation_runtime.py:1011-1031 | Any split of a log into append batches gives the same visible conversation |
| `Visibility.RemovableTailMeaning` | agentic/conversations/context_length_tracker.py:186-200 | What a rollback may hide is the longest suffix without a system message |
| `Visibility.RollbackActs` | agentic/conversations/conversation_runtime.py:911-921 | A rollback marker hides as many messages from the end as it says, fewer only in front of a system message or at the beginning, and never a system message |
| `Visibility.SplicesAct` | agentic/contracts/markers.py:44-77 | A compaction marker puts one assistant message with its summary in the place of its range, a discard marker keeps its prefix; where the range or the prefix does not fit nothing changes |
| `Visibility.MalformedIgnored` | agentic/contracts/markers.py:44-77 | A runtime message that is no marker, or a malformed one, changes nothing |
| `Visibility.TrueHidesOne` | agentic/conversations/conversation_runtime.py:960-980 | A rollback count of `true` counts as one |
| `Visibility.MaterializeVisibleConversation` | agentic/orchestration/task_orchestrator.py:173-204 | The loop of the offline replay computes the reference replay |
| `Visibility.ReplayPlain` | agentic/conversations/conversation_runtime.py:1029-1031 | Messages that are not runtime markers become visible as they are, in order |
| `Visibility.ReplayNormal` | agentic/orchestration/task_orchestrator.py:253-255 | Replay commutes with the loss of empty tool-call lists |
| `Visibility.TraceReplays` | agentic/orchestration/task_orchestrator.py:253-255 | Loading a persisted trace and replaying it gives the visible conversation of the live log, up to empty tool-call lists |
| `SftExport.ReplayDictsAgrees` | agentic/sft_export/swift_agent.py:105-184 | On the dictionary form of any log, the exporter shows the dictionary form of what the reference replay shows |
| `SftExport.ApplyRuntimeVisibility` | agentic/sft_export/swift_agent.py:105-184 | The exporter loop computes that replay, and every entry comes from its recorded source index: an ordinary message from its own place, a summary from its compaction marker, no index twice |
| `SftExport.PopTail` | agentic/sft_export/swift_agent.py:119-128 | Popping from the end, one entry at a time and never past a system message, hides exactly the counted tail |
| `SftExport.SpliceEntries` | agentic/sft_export/swift_agent.py:138-159 | A compaction marker that fits replaces its range by one summary entry with the marker's index; one that does not fit changes nothing |
| `Markers.MarkersRoundTrip` | agentic/contracts/markers.py:44-77 | Each parser inverts its producer and reads nothing from the two other kinds of marker |
| `Markers.DictParsersAgree` | agentic/contracts/markers.py:80-85 | The dictionary parsers read from a serialized message what the message parsers read from the message |
| `Messages.ToModelMessage` | agentic/contracts/messages.py:124-149 | The dictionary has exactly one key for each attribute that is not None, with the tool arguments encoded as text |
| `Messages.DictRoundTrip` | agentic/orchestration/task_orchestrator.py:117-154 | Serializing a message and reading it back loses nothing but an empty tool-call list |
| `Messages.TraceRoundTrip` | agentic/orchestration/task_orchestrator.py:104-155 | The same for whole traces, runtime messages included |
| `Messages.ConversationDictsToMessages` | agentic/orchestration/task_orchestrator.py:104-155 | The reading loop returns the messages of all dictionaries in order, or fails where one cannot be read; runtime messages only on request |
| `Messages.RuntimeSkipped` | agentic/orchestration/task_orchestrator.py:119-122 | Without runtime messages the reader reads exactly what it would read of the other dictionaries alone |
| `Messages.ReaderDefaults` | agentic/orchestration/task_orchestrator.py:119-152 | Unknown roles read as the user, a missing or null content as none, and every empty value of `tool_calls` as no calls |
| `Messages.ReaderFailsExactly` | agentic/orchestration/task_orchestrator.py:119-152 | Reading a dictionary fails if and only if its role cannot be looked up, a text attribute is not a string, or `tool_calls` holds something that is neither empty nor a list of readable calls |
| `Messages.ArgumentDefaults` | agentic/orchestration/task_orchestrator.py:129-135 | Tool arguments that are missing or cannot be decoded read as no arguments, an object or its JSON text as themselves |
| `TaskOrchestration.FromTrace` | agentic/orchestration/task_orchestrator.py:253-255 | A loaded result holds the trace's messages and the reference replay of them |
| `ContextTracking.ContextLengthTracker.constructor` | agentic/conversations/context_length_tracker.py:32-43 | An empty index, ratio 1, no anchor |
| `ContextTracking.ContextLengthTracker.Clone` | agentic/conversations/context_length_tracker.py:57-69 | A fresh object with the same contents, segments, totals, ratio and anchor, and the given estimator or the old one; its cached counts are its estimator's own if and only if that estimator costs every segment as the old one did |
| `ContextTracking.ContextLengthTracker.Reset` | agentic/conversations/context_length_tracker.py:71-76 | Back to the empty index |
| `ContextTracking.ContextLengthTracker.VisibleMessages` | agentic/conversations/context_length_tracker.py:78-79 | The concatenation of the segments is the visible conversation |
| `ContextTracking.ContextLengthTracker.AppendMany` | agentic/conversations/context_length_tracker.py:84-90 | The messages join the visible conversation at the end; segments stay non-empty and exactly costed, and the running totals equal the estimator on the whole list |
| `ContextTracking.CountRemovableTail` | agentic/conversations/context_length_tracker.py:186-200 | Counts what may be taken from the end, up to the limit |
| `ContextTracking.ContextLengthTracker.RollbackLast` | agentic/conversations/context_length_tracker.py:92-117 | The segment loop hides exactly the last messages, by default those above the nearest system message, returns how many, keeps all cached counts exact, and drops the anchor exactly when the anchored prefix is cut |
| `ContextTracking.ContextLengthTracker.ReplaceVisible` | agentic/conversations/context_length_tracker.py:119-130 | The new list is shown, the ratio survives, the anchor does not |
| `ContextTracking.ContextLengthTracker.RawEstimateWith` | agentic/conversations/context_length_tracker.py:139-142 | The incremental total equals the estimator applied to the whole visible list, plus that of the additional messages |
| `ContextTracking.ContextLengthTracker.EstimateWith` | agentic/conversations/context_length_tracker.py:132-137 | Anchored if there is a usable anchor, calibrated otherwise |
| `ContextTracking.ContextLengthTracker.Calibrate` | agentic/conversations/context_length_tracker.py:144-159 | Only the ratio moves, and stays within [0.25, 4] |
| `ContextTracking.ContextLengthTracker.AnchorObservedTokens` | agentic/conversations/context_length_tracker.py:161-173 | Calibrates and anchors on the whole visible conversation |
| `ContextTracking.ContextLengthTracker.Matches` | agentic/conversations/context_length_tracker.py:175-184 | True exactly for the visible conversation |
| `ContextTracking.RemovableConcat` | agentic/conversations/context_length_tracker.py:96-112 | How far a rollback reaches across a segment boundary |
| `TrackedView.ViewReplayVisible` | agentic/conversations/conversation_runtime.py:997-1031 | The incremental index always shows what the reference replay shows |
| `TrackedView.ViewReplayConcat` | agentic/conversations/conversation_runtime.py:992-995 | Appending a log in two steps is appending it at once, anchor and ratio included |
| `TrackedView.ViewReplayWf` | agentic/conversations/context_length_tracker.py:144-159 | Over any log the ratio stays bounded and the anchor never covers more than is visible |
| `TrackedView.LearningConverges` | agentic/conversations/context_length_tracker.py:144-159 | Repeated observations that ask for the same ratio take away a fifth of the distance to it each, so the ratio converges to the observed quotient, or to the nearest bound of [1/4, 4] |
| `TrackedView.CalibrationMeaning` | agentic/conversations/context_length_tracker.py:223-224 | Calibrated counts are the scaled counts cut down to whole numbers and never negative; a ratio of one changes nothing |
| `TrackedView.RatioSurvives` | agentic/conversations/context_length_tracker.py:119-130 | No log changes what was learned about the estimator |
| `TrackedView.AnchorDropsExactly` | agentic/conversations/context_length_tracker.py:92-130 | A message drops the anchor if and only if it splices the visible list, or leaves less of it than the anchor covers |
| `TrackedView.AnchorKeepsItsPrefix` | agentic/conversations/context_length_tracker.py:92-130 | No mix of appends, rollbacks, compactions and discards detaches a surviving anchor from the messages it was taken on; no log creates an anchor |
| `TrackedView.AnchoredEstimate` | agentic/conversations/context_length_tracker.py:207-216 | While an anchor survives, the estimate with the same probe is the observed count plus the calibrated cost of what was appended since |
| `RuntimeRuns.StepKeepsAnchor` | agentic/conversations/conversation_runtime.py:171-190 | The same over every call but an observation, which is the only one that can set an anchor |
| `RuntimeRuns.EveryAnchorIsCovered` | agentic/conversations/conversation_runtime.py:171-190 | At every point of every conversation, observations, markers and reopenings included, an anchor in force was taken by one of its calls, on a positive count for exactly what was visible then, and those messages still head what is visible now |
| `RuntimeRuns.AnchoredConversation` | agentic/conversations/conversation_runtime.py:171-190 | So an estimate made then is the provider's count for that earlier prompt plus the calibrated cost of everything shown since |
| `RuntimeTables.ObservationTable` | agentic/conversations/conversation_runtime.py:171-190 | A token count is used if and only if it is positive, is for the very prompt now visible, and counts are kept incrementally and not all zero; the estimate of that prompt is then that count |
| `ContextBudget.BudgetMeaning` | agentic/conversations/context_budget.py:33-115 | The three tests of the checkpoint pass exactly when the prompt leaves the warning threshold free, with and without the force-final prompt, the generation minimum where one is set, and a token after the force-final prompt where one is configured |
| `RuntimeTables.BudgetGuarantee` | agentic/conversations/conversation_runtime.py:594-621 | If the model is asked again after tool results, the estimate of its whole prompt, tool schema included, leaves the threshold and the safety margin free in the window, and the generation minimum where one is set; and so, with at least one token, does the same prompt with the force-final prompt |
| `RuntimeTables.SizeIs` | agentic/conversations/context_budget.py:117-128 | What the checks measure is the estimator on the visible conversation, the additional messages and, unless it counts the tools itself, the schema, all at once; where counts are kept incrementally, corrected by ratio and anchor |
| `RuntimeTables.ForcePromptIs` | agentic/conversations/conversation_runtime.py:895-904 | The force-final prompt is the announcement, the final-response prompt, or both with a blank line between |
| `Stages.ActionsFitTransitions` | agentic/contracts/conversation.py:177-289 | A stage asks to finish exactly when it has no successor, calls the model exactly where an answer is a legal transition, and runs tools exactly where results are, the internal rollback stage aside |
| `Runtime.ConversationRuntime.constructor` | agentic/conversations/conversation_runtime.py:83-131 | A fresh runtime with an empty tracker that estimates only where it may |
| `Runtime.ConversationRuntime.Clone` | agentic/conversations/conversation_runtime.py:225-248 | A fresh runtime with a fresh tracker and the same configuration and state, so no step of either touches the other, and equal steps, being functions of that state, give equal results |
| `Runtime.ConversationRuntime.Reset` | agentic/conversations/conversation_runtime.py:213-223 | Back to the fresh state |
| `Runtime.ConversationRuntime.ReopenAfterContextReset` | agentic/conversations/conversation_runtime.py:250-263 | Pending calls, rollbacks and trigger are forgotten and the model is asked again; log, view and turns stay, as `RuntimeTables.ReopenTable` spells out |
| `Runtime.ConversationRuntime.RecordObservedPromptTokens` | agentic/conversations/conversation_runtime.py:171-190 | Anchors on the observed count, and only for the prompt that is now visible |
| `Runtime.ConversationRuntime.ApplyToVisibleContext` | agentic/conversations/conversation_runtime.py:997-1057 | The batching loop has the effect of replaying the messages one at a time |
| `Runtime.ConversationRuntime.RebuildVisibleContext` | agentic/conversations/conversation_runtime.py:1059-1067 | Afterwards the tracker shows the reference replay of the whole log |
| `Runtime.ConversationRuntime.ValidateAppend` | agentic/conversations/conversation_runtime.py:1069-1078 | The loop rejects exactly a wrong first message and a late system message, first offence first |
| `Runtime.ConversationRuntime.AppendMessages` | agentic/conversations/conversation_runtime.py:992-995 | Log and view grow together, by the messages and by their replay; an invalid batch changes nothing |
| `Runtime.ConversationRuntime.InitializeConversation` | agentic/conversations/conversation_runtime.py:268-292 | The new state and the report are those of the specified step, spelled out by `RuntimeTables.OpeningTable` |
| `Runtime.ConversationRuntime.ApplyAssistantMessage` | agentic/conversations/conversation_runtime.py:294-404 | The same, for all branches of the dispatch, spelled out by `RuntimeTables.AnswerTable` |
| `Runtime.ConversationRuntime.ComputeRollbackCount` | agentic/conversations/conversation_runtime.py:923-932 | The reverse loop counts back to the last assistant message |
| `Runtime.ConversationRuntime.ResolvePendingToolCalls` | agentic/conversations/conversation_runtime.py:1080-1105 | Pending calls are forgotten either way; the results pass exactly if number and ids match |
| `Runtime.ConversationRuntime.ApplyBatchToolMessages` | agentic/conversations/conversation_runtime.py:406-441 | The new state and the report are those of the specified step, spelled out by `RuntimeTables.ResultsTable` |
| `Runtime.ConversationRuntime.ForceFinalizeAfterContextError` | agentic/conversations/conversation_runtime.py:690-726 | The same, for the recovery from a context-length error, spelled out by `RuntimeTables.RefusedPromptTable` |
| `Runtime.ConversationRuntime.ComputeLatestExchange` | agentic/conversations/conversation_runtime.py:934-954 | The reverse scan finds the size of the latest tool exchange, or 0 |
| `Runtime.ConversationRuntime.RollbackLatestExchangeAndForceFinalize` | agentic/conversations/conversation_runtime.py:728-768 | Recovery from empty responses, spelled out by `RuntimeTables.EmptyResponseTable`; a declined recovery changes nothing |
| `Runtime.ConversationRuntime.RollbackAssistantToolCalls` | agentic/conversations/conversation_runtime.py:1287-1322 | Discards the pending calls unless the rollback budget is spent |
| `Runtime.ConversationRuntime.ResetRollbackCounter` | agentic/conversations/conversation_runtime.py:1324-1329 | Only the rollback count changes, to zero |
| `RuntimeTables.AnswerTable` | agentic/conversations/conversation_runtime.py:294-404 | Every answer does exactly what a flat table over the configuration, the stage, the prompt size and the message says: the stages passed, the messages appended, what is visible, turns, rollbacks, pending calls, trigger; or raises where the table has no row |
| `RuntimeTables.ForcedEnding` | agentic/conversations/conversation_runtime.py:475-492 | At the last round an answer ends the conversation: out of tokens if and only if it is cut short and empty, rejected if and only if it has tool calls, otherwise as forced if and only if a force-final prompt is configured, and else as completed; the recorded trigger stays |
| `RuntimeTables.ResultsTable` | agentic/conversations/conversation_runtime.py:406-441 | The table of tool results: forced if the tools are exhausted, stopped at the generation minimum, cut back by the whole exchange if the context overflows, forced at the last permitted turn, and otherwise asked again |
| `RuntimeTables.RefusedPromptTable` | agentic/conversations/conversation_runtime.py:690-726 | The table of the recovery from a refused prompt, with the messages it takes back |
| `RuntimeTables.RefusedResultsAreUndone` | agentic/conversations/conversation_runtime.py:770-808 | Right after tool results the recovery shows exactly the prompt from before the calls, and the force-final prompt unless it stopped |
| `RuntimeTables.RefusedPromptStays` | agentic/conversations/conversation_runtime.py:770-808 | At the other stages before the last round it shows everything and the force-final prompt, wherever it does not raise |
| `RuntimeTables.EmptyResponseTable` | agentic/conversations/conversation_runtime.py:728-768 | The table of the recovery from empty responses |
| `RuntimeTables.LatestExchangeExactly` | agentic/conversations/conversation_runtime.py:934-958 | The scan gives n if and only if the last n messages are an assistant message with tool calls, at least one result and nothing but results after it, and the force-final prompt if that is the last message |
| `RuntimeTables.DiscardTable` | agentic/conversations/conversation_runtime.py:1287-1322 | The table of discarding pending calls |
| `RuntimeTables.OpeningTable` | agentic/conversations/conversation_runtime.py:268-292 | A conversation opens with the system message if one is set and not empty, then the task, and after that nothing but the force-final prompt where only one turn is permitted |
| `RuntimeTables.ReopenTable` | agentic/conversations/conversation_runtime.py:250-263 | Reopening shows what was shown and keeps log, turns and calibration; everything else is forgotten |
| `RuntimeTables.AppendRejects` | agentic/conversations/conversation_runtime.py:1069-1078 | Messages are appended unless one is a system message anywhere but at the beginning of the log, or neither a system nor a user message there |
| `RuntimeTables.MisplacedAnswer` | agentic/conversations/conversation_runtime.py:312-319 | An answer that does not fit the role or the stage raises and changes nothing |
| `RuntimeTables.MisplacedResults` | agentic/conversations/conversation_runtime.py:413-427 | Results that are not accepted raise, and leave no call pending |
| `RuntimeTables.RowReports` | agentic/conversations/conversation_runtime.py:1335-1378 | The report gives the stage, the action, the stages passed, the visible and the whole conversation and the appended messages of the step, and the recorded trigger at the forced and completed stages |
| `RuntimeRuns.EveryConversationKeeps` | agentic/conversations/conversation_runtime.py:294-441 | Over any sequence of runtime calls, with compaction and discard markers and reopenings between them, while each was allowed by the action returned before it and none raised: turn bound, pending calls exactly at the tool stage and being those of the last visible message, a recorded trigger at the forced stages, a visible conversation that is the replay of the log. The stages passed since the last reopening are a path of the table and the appended messages are the log |
| `RuntimeRuns.CallKeeps` | agentic/conversations/conversation_runtime.py:294-441 | One allowed call keeps all that, and raises exactly on an accepted text that meets an empty final-response prompt, and in the one dead end of the context recovery |
| `RuntimeRuns.MarkKeeps` | recipe/web_search/agent/orchestrator.py:1648-1653 | A runtime marker of any kind, appended where the model is called next, is accepted and keeps all that |
| `RuntimeRuns.SafeConversationsNeverRaise` | agentic/conversations/conversation_runtime.py:294-441 | Without a generation minimum that is measured, and with a usable final-response prompt, no allowed call sequence ever raises |
| `RuntimeRuns.ReopenKeepsTurnLimit` | agentic/conversations/conversation_runtime.py:250-263 | Where no generation minimum can stop it, a reopened runtime stays within the turn limit over every allowed continuation if and only if a turn was left before the last permitted one; otherwise two calls of the model suffice to go over, as the test looks for equality |
| `RuntimeRuns.ReopenStaysWithin` | agentic/conversations/conversation_runtime.py:250-263 | With a turn left, every allowed continuation keeps the whole invariant, under any configuration |
| `RuntimeLaws.AssistantStep` | agentic/conversations/conversation_runtime.py:294-404 | Every answer keeps the invariant and does one of four things: ends the conversation, leaves calls to run, is undone, or stands |
| `RuntimeLaws.RolledBackAnswerIsUndone` | agentic/conversations/conversation_runtime.py:1244-1275 | After a refusal or format-error rollback, prompt, ratio, anchor and turn count are those from before the answer, and so is the stage unless it was a re-prompt; one rollback is spent |
| `RuntimeLaws.AnswerHiddenExactly` | agentic/conversations/conversation_runtime.py:1164-1275 | An answer is undone if and only if it is a text before the final round, nothing cut it short or stopped it, a rollback is left, and it is refused, or misformatted under the rollback strategy; any other answer that does not raise takes a turn |
| `RuntimeLaws.AnswerRaisesExactly` | agentic/conversations/conversation_runtime.py:539-545 | An answer raises if and only if the final-response prompt is empty and due: a text before the final round that nothing cut short, stopped, hid or re-prompted |
| `RuntimeLaws.CallsAcceptedExactly` | agentic/conversations/conversation_runtime.py:329-367 | Tool calls are left to run if and only if they come before the final round and nothing cut them short or stopped them |
| `RuntimeLaws.RollbackSizeMeaning` | agentic/conversations/conversation_runtime.py:923-932 | A context rollback reaches back to the last assistant message and never past a system message; without an assistant message it takes everything above the system message |
| `RuntimeLaws.ForceFinalizeEffect` | agentic/conversations/conversation_runtime.py:770-808 | A forced finalization raises exactly in the dead end; otherwise it shows what was kept plus the force-final prompt |
| `RuntimeLaws.AwaitEffect` | agentic/conversations/conversation_runtime.py:577-592 | Either the model is asked again strictly before the last permitted turn, or the end has been forced |
| `RuntimeLaws.GenerationCheckEffect` | agentic/conversations/conversation_runtime.py:623-688 | The check never raises where it runs, and does nothing without a generation minimum |
| `RuntimeSteps.InitializeStep` | agentic/conversations/conversation_runtime.py:268-292 | A fresh runtime opens without raising and reaches the invariant; it logs and shows the system message if one is set and not empty, the task, and the force-final prompt if the end was forced |
| `RuntimeSteps.ToolResultsStep` | agentic/conversations/conversation_runtime.py:406-441 | Results that answer the pending calls never raise and keep the invariant; the model is then asked again within budget, or the end is forced |
| `RuntimeSteps.RollbackReachesTheCall` | agentic/conversations/conversation_runtime.py:923-932 | After tool results the context rollback hides exactly the results and their call message |
| `RuntimeSteps.OverflowingExchangeIsUndone` | agentic/conversations/conversation_runtime.py:594-621 | Tool results that overflow the context are taken back with their calls: the model sees the very prompt it had before, plus the force-final prompt |
| `RuntimeSteps.ContextRollbackRestoresPrompt` | agentic/conversations/conversation_runtime.py:770-808 | The same for any forced finalization right after tool results |
| `RuntimeSteps.DiscardedCallsAreUndone` | agentic/conversations/conversation_runtime.py:1287-1322 | Discarding pending calls restores prompt and turn count from before the answer; it is refused exactly when the rollback budget is spent |
| `RuntimeSteps.ContextErrorStep` | agentic/conversations/conversation_runtime.py:690-726 | The recovery raises if and only if a generation minimum is set, the force-final prompt does not fit and the stage can neither roll back nor stop; at the force-final stage it changes nothing |
| `RuntimeSteps.ResultsStopExactly` | agentic/conversations/conversation_runtime.py:657-688 | Tool results end the conversation at the terminal stage if and only if the tools are not exhausted and the generation minimum is missed, at once or because the force-final prompt does not fit even after the exchange was taken back |
| `RuntimeSteps.LatestExchangeMeaning` | agentic/conversations/conversation_runtime.py:934-958 | What the recovery hides is one assistant message with calls, its non-empty run of results, and at most the trailing force-final prompt |
| `RuntimeSteps.EmptyResponseStep` | agentic/conversations/conversation_runtime.py:728-768 | The recovery happens exactly when there is such an exchange and the stage may roll back; the visible list gets strictly shorter, by one exchange, even after the prompt is added again |
| `RuntimeRuns.EveryCallReports` | agentic/conversations/conversation_runtime.py:1335-1378 | In every conversation an allowed call that does not raise returns a report: all messages reported so far replay to the reported prompt, and the reported action says exactly whether an answer fits next, calls are pending, or neither |
| `ToolAnswers.AggregateRejected` | agentic/conversations/conversation_runtime.py:1107-1145 | The grouping loops compute the specified merge: passed results in order, then one message per rejected content in order of first appearance |
| `ToolAnswers.AggregationExactly` | agentic/conversations/conversation_runtime.py:1107-1145 | Place by place: a result that is not rejected stays as it is after those kept before it; then, for the first rejected result of each content and in that order, that result, or where others say the same one message with all their non-empty ids in order and their names |
| `ToolAnswers.JoinInOrder` | agentic/conversations/conversation_runtime.py:1133-1135 | The ids of a merged result are joined in order, with a comma between any two |
| `ToolAnswers.AnswersExactly` | agentic/conversations/conversation_runtime.py:1080-1105 | Results fit the pending calls if and only if there are as many, every call has an id that some result answers, and every id that is answered was asked for |
| `ToolAnswers.AggregationKeepsAnswers` | agentic/conversations/conversation_runtime.py:1107-1145 | Merging keeps the multiset of (call id, content) pairs if and only if no group of several members has an empty id |
| `ToolAnswers.AggregationShape` | agentic/conversations/conversation_runtime.py:1119-1145 | Results that are not rejected come first and in order; then exactly one message per distinct rejected content |
| `ToolAnswers.AggregateRoles` | agentic/conversations/conversation_runtime.py:418-422 | Merging keeps the tool role and never empties a batch, so the later checks pass |
| `ToolManagement.ToolManager.constructor` | agentic/tools/manager.py:40-74 | Zero counters for every registered tool |
| `ToolManagement.ToolManager.ExecuteToolCalls` | agentic/tools/manager.py:245-287 | The round's loops have the specified effect on counters, tracking and outcomes |
| `ToolManagement.ToolManager.Execute` | agentic/tools/manager.py:289-385 | One request: unknown tool, three budget checks in order, then the world decides; `ToolHistory.OutcomesRefine` says what that means for a task |
| `ToolManagement.ToolManager.BuildPrevious` | agentic/tools/manager.py:277-285 | Only tools that succeeded this round keep a run, one longer if the arguments are the same |
| `ToolManagement.ToolManager.AllToolsExhausted` | agentic/tools/manager.py:178-194 | True exactly when the per-task budget is spent or every registered tool has spent its own |
| `ToolManagement.ToolManager.RecordRejection` | agentic/tools/manager.py:196-201 | One more request, rejection and reason |
| `ToolManagement.ToolManager.ResetTaskState` | agentic/tools/manager.py:119-135 | All counters zero, no tracking |
| `ToolManagement.ToolManager.SnapshotTaskState` | agentic/tools/manager.py:147-154 | The whole per-task state |
| `ToolManagement.ToolManager.RestoreTaskState` | agentic/tools/manager.py:156-167 | The saved state, with zero entries for tools it does not know |
| `ToolPolicy.HistoryAccounted` | agentic/tools/manager.py:119-385 | Over any life of a manager, with rounds, rejections recorded from outside, resets and restored snapshots in any order: each metrics entry has requested = success + failed + rejected, with reason counts that sum to failed and rejected; per-tool counts sum to the per-task total; no per-task or tool budget is overdrawn |
| `ToolHistory.TaskRefines` | agentic/tools/manager.py:245-385 | Over any rounds of a task the counters, metrics, reason counts, unknown names and stored runs are those counted from the plain log of decided requests |
| `ToolHistory.OutcomesRefine` | agentic/tools/manager.py:245-385 | Every request of every round is answered as decided from that log alone: step limit, unknown tool, task budget, the limit of the tool or else the shared one, repeated arguments, then what the tool does; with the configured words |
| `ToolHistory.ExhaustionIs` | agentic/tools/manager.py:178-194 | The tools are exhausted if and only if the log holds as many calls as the task allows, or as many to every registered tool as that tool allows |
| `ToolHistory.RepeatsRunUpToTheLimit` | agentic/tools/manager.py:325-344 | With settled arguments and room in the other budgets each of the first L rounds of the same successful call runs, and the next is rejected for its arguments, L being the limit of the tool or else the shared one |
| `ToolPolicy.StartAccounted` | agentic/tools/manager.py:119-135 | A reset manager and a new one are at the start of a task, and accounted |
| `ToolPolicy.StepLimitHolds` | agentic/tools/manager.py:254-273 | A round never has more non-rejected outcomes than one step allows |
| `ToolPolicy.OneOutcomePerRequest` | agentic/tools/manager.py:259-275 | One outcome per request, in order, with its call id and tool |
| `ToolPolicy.BatchFits` | agentic/orchestration/task_orchestrator.py:512-531 | A round run for pending calls passes the runtime's id check if and only if no call id is empty |
| `ToolPolicy.ExhaustionAbsorbs` | agentic/tools/manager.py:178-194 | Once exhausted, every later round is rejected as a whole and spends nothing, so exhaustion persists |
| `ToolPolicy.NotExhausted` | agentic/tools/manager.py:178-194 | With tools registered, exhaustion fails if and only if some tool, whatever is asked of it, runs or is refused for nothing but repeated arguments |
| `ToolPolicy.StoredCountIsRunLength` | agentic/tools/manager.py:277-285 | Over any history the stored count of a tool is the length of the current run of rounds that ended in the same successful arguments |
| `ToolPolicy.SettledRepairKeepsLimit` | agentic/tools/manager.py:325-344 | Where one repair more changes nothing in what a round stores, no run outgrows its limit |
| `ToolPolicy.RunLimitIsExact` | agentic/tools/manager.py:259-344 | From any new task, the limit on repeated arguments holds in every history if and only if another budget stops the tool first or its repair settles: after one repair for requests that the manager is given as they are, after two for requests that callers have repaired already, as the orchestrator does |
| `ToolPolicy.DriftingHistory` | agentic/tools/manager.py:259-344 | Otherwise a history of identical calls outruns it, as the check compares the arguments after one repair more than the stored ones |
| `ToolPolicy.RestoreRecovers` | agentic/tools/manager.py:147-167 | Restoring the snapshot of any reachable state brings back exactly that state if and only if it has an entry for every tool |
| `ToolPolicy.StartCovers` | agentic/tools/manager.py:156-167 | A new manager, a new task and whatever is restored have those entries |
| `TaskOrchestration.TaskOrchestrator.Run` | agentic/orchestration/task_orchestrator.py:322-415 | The loop ends, and its reason, last prompt, trace and tool state are those of the specified run; unless an exception has left the loop, the trace is the whole log and replays to the last prompt |
| `TaskOrchestration.TaskOrchestrator.RunTurn` | agentic/orchestration/task_orchestrator.py:419-499 | One model event, handled as specified |
| `TaskOrchestration.TaskOrchestrator.RunToolPhase` | agentic/orchestration/task_orchestrator.py:501-543 | Execute, merge, apply, persist; never reported as done |
| `TaskOrchestration.TaskOrchestrator.SyncTrace` | agentic/orchestration/task_orchestrator.py:932-935 | The trace grows by the dictionaries of the appended messages |
| `Orchestration.TurnKeeps` | agentic/orchestration/task_orchestrator.py:419-543 | A turn goes on with a strictly lower potential, or ends the run for a specific reason; it ends in an exception exactly on the listed events, and otherwise keeps the invariant, the prompt and the trace, finished or not |
| `Orchestration.SafeNeverCrashes` | agentic/orchestration/task_orchestrator.py:419-543 | None of those events can occur under a safe configuration and a model that keeps to its format |
| `Orchestration.EveryRunEnds` | agentic/orchestration/task_orchestrator.py:348-375 | With a turn limit every run ends by itself within an explicit number of turns, whatever the model, its errors and the tools do, and never for the generic forced-completion reason |
| `Orchestration.RunKeeps` | agentic/orchestration/task_orchestrator.py:361-375 | The same after any number of turns, finished or not; a run under a safe configuration with a model that keeps to its format never ends in an exception |
| `Orchestration.TraceIsFaithful` | agentic/orchestration/task_orchestrator.py:462-467 | At every point of every run and at its end, unless an exception has left the loop: the prompt is what the runtime shows, the persisted trace is the whole log, and loading and replaying the trace gives that prompt, up to empty tool-call lists |
| `Orchestration.TurnsStayBounded` | agentic/conversations/conversation_runtime.py:850-853 | At every point of every run, even one that has crashed, turns are within the limit; and a stage that waits for a free answer comes strictly before the last permitted turn, so the equality test never misses |
| `Orchestration.ToolsStayAccounted` | agentic/orchestration/task_orchestrator.py:501-543 | At every point of every run the tool manager's books balance and no budget is overdrawn; and unless an exception has left the loop, a stage that waits for a free answer finds the tools not exhausted, or untouched |
| `RunTables.StartTable` | agentic/orchestration/task_orchestrator.py:322-349 | A run starts from the opened conversation, with a trace of exactly that and the tools of a new task |
| `RunTables.AnswerTurnTable` | agentic/orchestration/task_orchestrator.py:419-499 | After an answer that does not run tools, the run shows and persists what the answer table says, and ends for the reason of the stage and trigger reached, or goes on |
| `RunTables.ToolTurnTable` | agentic/orchestration/task_orchestrator.py:501-543 | Tool calls run as one round; the results, merged by the ids of exactly the rejected requests, are applied as the results table says, with exhaustion reported as it is; and the run goes on |
| `RunTables.RefusedTurnTable` | agentic/orchestration/task_orchestrator.py:680-698 | A refused prompt ends the run at the last round or where the generation minimum stops it, for the context limit; otherwise the run goes on to the last round |
| `RunTables.EmptyTurnTable` | agentic/orchestration/task_orchestrator.py:644-678 | Empty responses end the run unless the latest exchange can be taken back |
| `RunTables.OtherTurnTable` | agentic/orchestration/task_orchestrator.py:612-642 | Any other error of the model ends the run where it is |
| `RunTables.ForcedRunEnds` | agentic/orchestration/task_orchestrator.py:700-718 | At the last round a text answer ends the run for the reason that forced it, or as the final answer where no prompt did; tool calls end it as rejected |
| `Orchestration.FinishedSpecific` | agentic/orchestration/task_orchestrator.py:700-718 | A finished answer reports a specific reason: the generic forced-completion reason is unreachable |
| `Orchestration.ToolPhaseOk` | agentic/orchestration/task_orchestrator.py:501-543 | The tool phase goes on, with a lower potential and the invariant, prompt and trace kept, if and only if no call id is empty; otherwise the runtime raises |
| `Orchestration.DeadEndCrashes` | agentic/orchestration/task_orchestrator.py:543 | Where a tool phase ended at the terminal stage, which is not reported as done, the next answer or recovery raises |
| `DeadEnd.DeadEndIsReached` | agentic/orchestration/task_orchestrator.py:501-543 | A concrete configuration whose run gets there with one tool call, and crashes on its second turn |
| `DeadEnd.EmptyPromptCrashes` | agentic/conversations/conversation_runtime.py:539-545 | With an empty final-response prompt, the first text answer of any run leaves the loop as an exception |
| `DeadEnd.NoRoomCrashes` | agentic/conversations/conversation_runtime.py:690-726 | With a generation minimum and no room for the force-final prompt, a context error on the first turn of any run does the same |
| `LoopCap.CapNeverFires` | agentic/orchestration/task_orchestrator.py:353-375 | Where the explicit bound is below the cap, the capped loop is the uncapped one in every run |
| `LoopCap.CappedKeeps` | agentic/orchestration/task_orchestrator.py:361-375 | The cap ends a run without harm: prompt, trace and invariant are kept |
| `LoopCap.CappedExactly` | agentic/orchestration/task_orchestrator.py:353-375 | The cap is 200 turns above the turn limit, or above 10000 without one; before it the capped loop is the uncapped one, and a run still unfinished there ends with nothing else changed |
| `LongestRun.TurnSpends` | agentic/orchestration/task_orchestrator.py:419-543 | Where nothing measures the context, every turn that does not finish the run uses up one of the turns left, an exact count of rollbacks, permitted turns and exchanges in sight |
| `LongestRun.NoRunIsLonger` | agentic/orchestration/task_orchestrator.py:348-375 | So no run takes more turns than the longest run |
| `LongestRun.LongestRunIsAttained` | agentic/orchestration/task_orchestrator.py:644-678 | and some run takes as many, with any tools and with or without a final-response prompt |
| `LongestRun.CapFiresExactly` | agentic/orchestration/task_orchestrator.py:353-375 | Hence some run meets the cap if and only if the longest run is at least as long as the cap |
| `LongestRun.CapFiresFrom202` | agentic/orchestration/task_orchestrator.py:353-375 | Without a final-response prompt, as by default: if and only if max_turns is at least 2 and max_turns plus the spendable rollbacks is at least 202 |
| `RequestLogging.EveryRunKeeps` | agentic/model_clients/request_logger.py:93-208 | After any interleaving of producers, closers and the writer: the files hold a prefix of the accepted records in order, the queue holds the rest, closed parts are non-empty and within both limits unless they hold one oversized record, and counters and part list are exact |
| `RequestLogging.EveryRunPacks` | agentic/model_clients/request_logger.py:174-186 | After any interleaving no part file but the first is empty or was begun before a record did not fit into the one before, and an open manifest lists exactly the files before the last one and counts their records |
| `RequestLogging.AcceptedExactly` | agentic/model_clients/request_logger.py:93-131 | The accepted records are those logged before the first close, in order, whatever the writer does |
| `RequestLogging.CloseDelivers` | agentic/model_clients/request_logger.py:126-131 | After a close, once the writer has had as many turns as there were queued items, and whatever else is called meanwhile: the files hold every accepted record exactly once and in order, up to the first that cannot be encoded; the manifest is closed, with parts that sum to its total, if and only if there is none |
| `RequestLogging.ClosedManifestIsComplete` | agentic/model_clients/request_logger.py:193-196 | In every interleaving a manifest that is marked closed lists everything accepted, and the writer has ended |
| `RequestLogging.OnlyWritesMatter` | agentic/model_clients/request_logger.py:119-131 | After a close only the turns of the writer change anything |
| `RequestLogging.NothingAfterClose` | agentic/model_clients/request_logger.py:119-124 | Whatever is logged after the close reaches neither the files, nor the total, nor the manifest |
| `RequestLogging.RecordKeeps` | agentic/model_clients/request_logger.py:189-205 | Writing one record, with a roll before it if it does not fit |
| `RequestLogging.SentinelDelivers` | agentic/model_clients/request_logger.py:193-196 | At the sentinel everything accepted is in the files and listed in the manifest |
| `RequestLogging.ModelRequestLogger.constructor` | agentic/model_clients/request_logger.py:44-80 | Limits are at least one; nothing logged yet |
| `RequestLogging.ModelRequestLogger.Log` | agentic/model_clients/request_logger.py:93-124 | Accepted and queued, unless closed |
| `RequestLogging.ModelRequestLogger.Close` | agentic/model_clients/request_logger.py:126-131 | One sentinel, once |
| `RequestLogging.ModelRequestLogger.WriteNext` | agentic/model_clients/request_logger.py:189-205 | One turn of the writer, as specified |
| `RequestLogging.ModelRequestLogger.Drain` | agentic/model_clients/request_logger.py:186-208 | The writer loop ends after a close, with the encodable prefix of what was accepted on disk |

## Left out

- Messages.ConversationDictsToMessages: names, ids and roles are plain strings; a reader error is one value, whichever exception the validation library would raise.
- ContextTracking.ContextLengthTracker.Matches: compares messages by value where the source compares object identity, because messages are values here; callers pass the runtime's own list, for which both agree.
- Orchestration.TurnKeeps: knows the exceptions of the modelled events only. A model client that raises anything but ValueError or RuntimeError (agentic/orchestration/task_orchestrator.py:439), and a tool schema that is itself invalid, of which parameter validation catches nothing but ValidationError (agentic/tools/manager.py:450-453), leave the loop as well.
- ToolManagement.ToolManager.BuildPrevious: arguments are compared structurally, while Python's dictionary equality identifies 1, 1.0 and True.
- ToolPolicy.StoredCountIsRunLength: the same comparison, so its runs are of structurally equal arguments.
- Orchestration.EveryRunEnds: its bound holds for every configuration with a turn limit, and is generous; the exact one is `LongestRun.LongestRun`.
- LongestRun.CapFiresExactly: covers configurations that do not measure the context and whose force-final prompt is not an empty text, with tools that are not exhausted from the start; for the others only one direction is proved, that the cap never fires where the general bound is below it (`LoopCap.CapNeverFires`), because there the token estimator decides how long a run can go on.
- RuntimeRuns.ReopenKeepsTurnLimit: where a generation minimum is measured, only the safe direction is proved (`RuntimeRuns.ReopenStaysWithin`), because the budget may stop the conversation before it goes over.
- ToolManagement.ToolManager.SnapshotTaskState: tracker segments and metrics entries are values, so the deep copies that keep snapshots and clones apart are not visible as object structure.
- Registering tools after construction: the registry is fixed for a manager.
- Step info dictionaries, emoji, previews and log text; timing fields and latency samples; result metadata.
- Joining the distinct sorted names of merged results is a parameter; only the set of names is passed to it.
- The rendering of tool results as user messages for the model call (`tool_result_role`), the prompt template, and the structured task input.
- Final output extraction, rewards, run-info aggregation and task log files.
- JSON text, field validation, tokenizers, model clients with their retries, the bodies of tools and of argument repair.
- SFT export warnings and the conversion of visible entries to training messages; roles that are not strings.
- `next_id`, the join timeout of `close`, compression, and part files left by an earlier session with the same name.
- Subclass behaviour: direct final answers, per-request rendering, and other hooks.
