/** The abstract value of the context tracker: the visible conversation, the calibration ratio learned
    from the provider, and the anchor on an already-measured prefix. */
module TrackedView {
  import opened Messages
  import opened Markers
  import opened Visibility

  type Estimator = seq<Message> -> int

  /** What the tracker asks of its estimator: counts of appended diffs can be summed. */
  ghost predicate Additive(est: Estimator) {
    && (forall ms :: est(ms) >= 0)
    && (forall a, b {:trigger est(a + b)} :: est(a + b) == est(a) + est(b))
  }

  ghost predicate Summable(est: Option<Estimator>) {
    est.Some? ==> Additive(est.value)
  }

  /** The raw token count of some messages; nothing is counted without an estimator. */
  function Cost(est: Option<Estimator>, ms: seq<Message>): nat {
    if est.None? || est.value(ms) < 0 then 0 else est.value(ms)
  }

  lemma CostSplits(est: Option<Estimator>, a: seq<Message>, b: seq<Message>)
    requires Summable(est)
    ensures Cost(est, a + b) == Cost(est, a) + Cost(est, b)
    ensures Cost(est, []) == 0
  {
    if est.Some? {
      var none: seq<Message> := [];
      assert none + none == none;
      assert est.value(none + none) == est.value(none) + est.value(none);
      assert est.value(a + b) == est.value(a) + est.value(b);
    }
  }

  // ---------- Calibration ----------

  const ALPHA := 0.2
  const RATIO_MIN := 0.25
  const RATIO_MAX := 4.0

  predicate RatioOk(ratio: real) {
    RATIO_MIN <= ratio <= RATIO_MAX
  }

  /** `max(0, int(raw * ratio))`. */
  function CalibrateTokens(raw: int, ratio: real): nat {
    var scaled := raw as real * ratio;
    if scaled <= 0.0 then 0 else scaled.Floor
  }

  function Bounded(r: real): real {
    var low := if r > RATIO_MIN then r else RATIO_MIN;
    if low < RATIO_MAX then low else RATIO_MAX
  }

  function NextRatio(ratio: real, observed: int, raw: int): (r: real)
    ensures RatioOk(ratio) ==> RatioOk(r)
  {
    if observed <= 0 || raw <= 0 then ratio
    else (1.0 - ALPHA) * ratio + ALPHA * Bounded(observed as real / raw as real)
  }

  /** A count of tokens is scaled by the ratio and cut down to a whole number; a ratio of one changes nothing. */
  lemma CalibrationMeaning(raw: int, ratio: real)
    ensures
      var tokens := CalibrateTokens(raw, ratio);
      if raw as real * ratio < 0.0 then tokens == 0
      else tokens as real <= raw as real * ratio < tokens as real + 1.0
    ensures raw >= 0 ==> CalibrateTokens(raw, 1.0) == raw
  {
  }

  /** `k` observations that all ask for the same ratio. */
  function Learned(ratio: real, observed: int, raw: int, k: nat): real {
    if k == 0 then ratio else NextRatio(Learned(ratio, observed, raw, k - 1), observed, raw)
  }

  function Power(x: real, k: nat): real {
    if k == 0 then 1.0 else x * Power(x, k - 1)
  }

  /** What an observation asks of the ratio: the observed quotient, or the nearest bound. */
  function Target(observed: int, raw: int): real
    requires raw > 0
  {
    var quotient := observed as real / raw as real;
    if quotient < 0.25 then 0.25 else if quotient > 4.0 then 4.0 else quotient
  }

  /** The ratio learns geometrically: each observation takes away a fifth of the distance to its target; one that is not
      positive changes nothing. */
  lemma {:induction false} LearningConverges(ratio: real, observed: int, raw: int, k: nat)
    ensures observed > 0 && raw > 0 ==>
              Learned(ratio, observed, raw, k) - Target(observed, raw)
              == Power(0.8, k) * (ratio - Target(observed, raw))
    ensures observed <= 0 || raw <= 0 ==> Learned(ratio, observed, raw, k) == ratio
  {
    if k > 0 {
      LearningConverges(ratio, observed, raw, k - 1);
      if observed > 0 && raw > 0 {
        hide Target, NextRatio;
        OneStepCloser(Learned(ratio, observed, raw, k - 1), observed, raw);
        PowerStep(Power(0.8, k - 1), ratio - Target(observed, raw));
      }
    }
  }

  lemma OneStepCloser(ratio: real, observed: int, raw: int)
    requires observed > 0 && raw > 0
    ensures NextRatio(ratio, observed, raw) - Target(observed, raw) == 0.8 * (ratio - Target(observed, raw))
  {
  }

  lemma PowerStep(p: real, d: real)
    ensures 0.8 * (p * d) == (0.8 * p) * d
  {
  }

  // ---------- The view and its operations ----------

  datatype Anchor = Anchor(count: nat, raw: int, observed: int)

  datatype View = View(visible: seq<Message>, ratio: real, anchor: Option<Anchor>) {
    predicate Wf() {
      RatioOk(ratio) && (anchor.Some? ==> anchor.value.count <= |visible|)
    }
  }

  const EMPTY: View := View([], 1.0, None)

  function Hidden(v: View, n: nat): View {
    var visible := DropTail(v.visible, n);
    View(visible, v.ratio, if v.anchor.Some? && |visible| < v.anchor.value.count then None else v.anchor)
  }

  /** The learned ratio outlives a splice; the anchor does not. */
  function Replaced(v: View, visible: seq<Message>): View {
    View(visible, v.ratio, None)
  }

  function Spliced(v: View, spliced: Option<seq<Message>>): View {
    if spliced.None? then v else Replaced(v, spliced.value)
  }

  function Anchored(v: View, observed: int, raw: int): View {
    if observed <= 0 || raw <= 0 then v
    else View(v.visible, NextRatio(v.ratio, observed, raw), Some(Anchor(|v.visible|, raw, observed)))
  }

  function ViewPerform(v: View, m: Message, effect: Effect): View {
    match effect
    case Show => v.(visible := v.visible + [m])
    case Hide(n) => Hidden(v, n)
    case Summarise(c) => Spliced(v, SpliceCompaction(v.visible, c))
    case Keep(d) => Spliced(v, SpliceDiscardAll(v.visible, d))
    case Ignore => v
  }

  function ViewApply(v: View, m: Message): View {
    ViewPerform(v, m, EffectOf(m))
  }

  /** The view after appending `log`, one message at a time. */
  function ViewReplay(v: View, log: seq<Message>): View {
    if log == [] then v else ViewApply(ViewReplay(v, log[..|log| - 1]), log[|log| - 1])
  }

  // ---------- Estimates ----------

  function RawEstimate(est: Option<Estimator>, v: View, additional: seq<Message>): nat {
    Cost(est, v.visible) + Cost(est, additional)
  }

  /** Observed tokens for the anchored prefix plus calibrated tokens for the rest; without a usable
      anchor, everything is calibrated. */
  function Estimate(est: Option<Estimator>, v: View, additional: seq<Message>): nat {
    var raw := RawEstimate(est, v, additional);
    if v.anchor.Some? && raw >= v.anchor.value.raw then
      Max0(v.anchor.value.observed + CalibrateTokens(raw - v.anchor.value.raw, v.ratio))
    else CalibrateTokens(raw, v.ratio)
  }

  // ---------- Laws ----------

  lemma {:induction false} ViewReplayConcat(v: View, a: seq<Message>, b: seq<Message>)
    ensures ViewReplay(v, a + b) == ViewReplay(ViewReplay(v, a), b)
  {
    if b == [] {
      assert a + b == a;
    } else {
      var n := |b| - 1;
      assert (a + b)[..|a + b| - 1] == a + b[..n];
      ViewReplayConcat(v, a, b[..n]);
    }
  }

  lemma {:induction false} ViewReplayOne(v: View, m: Message)
    ensures ViewReplay(v, [m]) == ViewApply(v, m)
  {
  }

  /** The incremental index shows exactly what the reference replay shows. */
  lemma {:induction false} ViewReplayVisible(v: View, log: seq<Message>)
    ensures ViewReplay(v, log).visible == Replay(v.visible, log)
  {
    if log != [] {
      ViewReplayVisible(v, log[..|log| - 1]);
    }
  }

  lemma {:induction false} ViewReplayWf(v: View, log: seq<Message>)
    requires v.Wf()
    ensures ViewReplay(v, log).Wf()
  {
    if log != [] {
      ViewReplayWf(v, log[..|log| - 1]);
    }
  }

  lemma {:induction false} ViewReplayPlain(v: View, ms: seq<Message>)
    requires forall i :: 0 <= i < |ms| ==> ms[i].role != Runtime
    ensures ViewReplay(v, ms) == v.(visible := v.visible + ms)
  {
    if ms == [] {
      assert v.visible + ms == v.visible;
    } else {
      var n := |ms| - 1;
      ViewReplayPlain(v, ms[..n]);
      assert v.visible + ms[..n] + [ms[n]] == v.visible + ms;
    }
  }

  /** Whatever the log holds, what was learned about the estimator stays. */
  lemma {:induction false} RatioSurvives(v: View, log: seq<Message>)
    ensures ViewReplay(v, log).ratio == v.ratio
  {
    if log != [] {
      RatioSurvives(v, log[..|log| - 1]);
    }
  }

  /** A message drops the anchor exactly if it splices the visible list, or leaves less of it than the anchor covers. */
  lemma AnchorDropsExactly(v: View, m: Message)
    requires v.Wf()
    ensures
      var after := ViewApply(v, m);
      var spliced := match EffectOf(m)
                     case Summarise(c) => c.prefixLen + c.compressedCount <= |v.visible|
                     case Keep(d) => d.prefixLen <= |v.visible|
                     case _ => false;
      after.anchor == if spliced || (v.anchor.Some? && |after.visible| < v.anchor.value.count) then None else v.anchor
  {
  }

  /** The anchor `a`, if it is still the one in force, stands for `prefix`, which still heads the visible list. */
  predicate Covers(v: View, a: Anchor, prefix: seq<Message>) {
    v.anchor == Some(a) ==> a.count == |prefix| && prefix <= v.visible
  }

  /** No mix of appends, rollbacks, compactions and discards detaches a surviving anchor from the
      messages it was taken on. */
  lemma {:induction false} AnchorKeepsItsPrefix(v: View, a: Anchor, prefix: seq<Message>, log: seq<Message>)
    requires Covers(v, a, prefix)
    ensures Covers(ViewReplay(v, log), a, prefix)
    ensures ViewReplay(v, log).anchor in {None, v.anchor}
  {
    if log != [] {
      var n := |log| - 1;
      AnchorKeepsItsPrefix(v, a, prefix, log[..n]);
      var before := ViewReplay(v, log[..n]);
      var after := ViewApply(before, log[n]);
      if after.anchor == Some(a) {
        match EffectOf(log[n]) {
          case Show => assert before.visible <= after.visible;
          case Hide(k) => assert after.visible <= before.visible && |prefix| <= |after.visible|;
          case _ =>
        }
      }
    }
  }

  /** While the anchor taken with probe messages `probe` survives, an estimate with the same probe (and
      possibly an extra message) is the provider's count for the prefix plus the calibrated cost of what came after. */
  lemma {:induction false} AnchoredEstimate(est: Option<Estimator>, v: View, prefix: seq<Message>, probe: seq<Message>,
                         observed: int, log: seq<Message>, extra: seq<Message>)
    requires Summable(est) && v.visible == prefix
    requires observed > 0 && RawEstimate(est, v, probe) > 0
    ensures
      var taken := Anchored(v, observed, RawEstimate(est, v, probe));
      var now := ViewReplay(taken, log);
      now.anchor.Some? ==>
        && prefix <= now.visible
        && Estimate(est, now, extra + probe)
             == observed + CalibrateTokens(Cost(est, now.visible[|prefix|..]) + Cost(est, extra), now.ratio)
  {
    var taken := Anchored(v, observed, RawEstimate(est, v, probe));
    var a := taken.anchor.value;
    var now := ViewReplay(taken, log);
    AnchorKeepsItsPrefix(taken, a, prefix, log);
    if now.anchor.Some? {
      assert now.anchor == Some(a);
      assert now.visible == prefix + now.visible[|prefix|..];
      CostSplits(est, prefix, now.visible[|prefix|..]);
      CostSplits(est, extra, probe);
    }
  }
}
