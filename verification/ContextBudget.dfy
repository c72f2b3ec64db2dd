/** Runtime configuration and the context budgets computed from it. */
module ContextBudget {
  import opened Messages
  import opened TrackedView

  datatype FormatErrorStrategy = Reprompt | Rollback | Ignore

  /** The configuration of one runtime. Keyword detection, prompt texts and the token estimator are parameters. */
  datatype Config = Config(
    systemPrompt: Option<string>,
    earlyStop: Option<string>,
    finalPrompt: Option<string>,
    strategy: FormatErrorStrategy,
    reprompt: Text,
    refuses: Text -> bool,
    misformats: Text -> bool,
    maxRollbacks: nat,
    maxTurns: Option<nat>,
    aggregateRejected: bool,
    joinNames: set<string> -> Option<string>,
    toolSchema: Option<Text>,
    window: Option<int>,
    safetyMargin: nat,
    minGeneration: nat,
    warningThreshold: int,
    estimator: Estimator,
    estimatorIncludesTools: bool,
    estimatorIsAdditive: bool,
    preflight: bool)
  {
    /** The limits that configuration loading enforces, and the promise made with the additive flag. */
    ghost predicate Ok() {
      && (maxTurns.Some? ==> maxTurns.value >= 1)
      && (estimatorIsAdditive ==> Additive(estimator))
    }

    /** A generation minimum is set, and something is measured against it. */
    predicate MayStop() {
      minGeneration > 0 && preflight && window.Some?
    }

    predicate Incremental() {
      preflight && window.Some? && estimatorIsAdditive && !estimatorIncludesTools
    }

    function TrackerEstimator(): Option<Estimator> {
      if Incremental() then Some(estimator) else None
    }

    /** The prompt injected when generation is forced to finish. */
    function EarlyStopPrompt(): Option<string> {
      if earlyStop.None? then finalPrompt
      else if finalPrompt.None? then earlyStop
      else Some(earlyStop.value + "\n\n" + finalPrompt.value)
    }

    function Probe(): seq<Message> {
      if toolSchema.Some? && !estimatorIncludesTools then [UserMessage(toolSchema.value)] else []
    }

    function WarningMessages(): seq<Message> {
      if EarlyStopPrompt().Some? then [UserMessage(Plain(EarlyStopPrompt().value))] else []
    }
  }

  /** Estimated tokens of a prompt: the visible conversation, some more messages, and the tool schema. */
  function PromptTokens(cfg: Config, v: View, additional: seq<Message>): int {
    if cfg.Incremental() then Estimate(Some(cfg.estimator), v, additional + cfg.Probe())
    else cfg.estimator(v.visible + (additional + cfg.Probe()))
  }

  datatype Budget = Budget(hardStop: bool, needsWarning: bool, warningFits: bool)

  function GenerationBudget(cfg: Config, v: View): Budget {
    if cfg.window.None? then Budget(false, false, true) else
    var remaining := cfg.window.value - PromptTokens(cfg, v, []) - cfg.safetyMargin;
    var hardStop := cfg.minGeneration > 0 && remaining < cfg.minGeneration;
    Budget(hardStop, !hardStop && remaining < cfg.warningThreshold, true)
  }

  /** What is left of the window once the force-final prompt is added; None when nothing is measured. */
  function WarningRemaining(cfg: Config, v: View): Option<int> {
    if cfg.window.None? || cfg.EarlyStopPrompt().None? then None
    else Some(cfg.window.value - PromptTokens(cfg, v, cfg.WarningMessages()) - cfg.safetyMargin)
  }

  predicate WarningFits(cfg: Config, v: View) {
    var r := WarningRemaining(cfg, v);
    r.None? || r.value > 0
  }

  function ForceFinalizationBudget(cfg: Config, v: View): Budget {
    var generation := GenerationBudget(cfg, v);
    var r := WarningRemaining(cfg, v);
    Budget(
      generation.hardStop,
      generation.needsWarning || (r.Some? && r.value < cfg.warningThreshold),
      WarningFits(cfg, v))
  }

  /** `tokens` more tokens and the safety margin still fit after the prompt with `additional` messages. */
  predicate Leaves(cfg: Config, v: View, additional: seq<Message>, tokens: int) {
    cfg.window.Some? ==> PromptTokens(cfg, v, additional) + tokens + cfg.safetyMargin <= cfg.window.value
  }

  /** The three tests of the checkpoint pass exactly when the prompt leaves the warning threshold free, with and
      without the force-final prompt, the generation minimum too where one is set, and at least one token after
      the force-final prompt where one is configured. */
  lemma BudgetMeaning(cfg: Config, v: View)
    ensures
      var b := ForceFinalizationBudget(cfg, v);
      (!b.hardStop && !b.needsWarning && b.warningFits) <==>
      (&& Leaves(cfg, v, [], cfg.warningThreshold)
       && Leaves(cfg, v, cfg.WarningMessages(), cfg.warningThreshold)
       && (cfg.minGeneration > 0 ==> Leaves(cfg, v, [], cfg.minGeneration))
       && (cfg.EarlyStopPrompt().Some? ==> Leaves(cfg, v, cfg.WarningMessages(), 1)))
  {
  }
}
