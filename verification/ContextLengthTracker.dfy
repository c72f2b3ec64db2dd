/** The incremental context index: segments of visible messages with cached token counts. */
module ContextTracking {
  import opened Messages
  import opened Markers
  import opened Visibility
  import opened TrackedView

  datatype Segment = Segment(messages: seq<Message>, tokens: int)

  /** The messages of all segments, in order. */
  function Flat(segments: seq<Segment>): seq<Message> {
    if segments == [] then []
    else Flat(segments[..|segments| - 1]) + segments[|segments| - 1].messages
  }

  lemma {:induction false} FlatSnoc(segments: seq<Segment>, s: Segment)
    ensures Flat(segments + [s]) == Flat(segments) + s.messages
  {
  }

  lemma {:induction false} FlatLast(segments: seq<Segment>)
    requires segments != []
    ensures Flat(segments) == Flat(segments[..|segments| - 1]) + segments[|segments| - 1].messages
  {
  }

  lemma {:induction false} FlatContains(segments: seq<Segment>, k: nat)
    requires k <= |segments|
    ensures Flat(segments[..k]) <= Flat(segments)
    decreases |segments| - k
  {
    if k == |segments| {
      assert segments[..k] == segments;
    } else {
      assert segments[..k + 1][..k] == segments[..k];
      FlatContains(segments, k + 1);
    }
  }

  // Dropping the tail of a concatenation.

  lemma {:induction false} RemovableConcat(a: seq<Message>, b: seq<Message>)
    ensures RemovableTail(a + b) == if RemovableTail(b) < |b| then RemovableTail(b) else |b| + RemovableTail(a)
  {
    if b == [] {
      assert a + b == a;
    } else {
      var n := |b| - 1;
      assert (a + b)[..|a + b| - 1] == a + b[..n];
      RemovableConcat(a, b[..n]);
    }
  }

  lemma Front(a: seq<Message>, b: seq<Message>, k: nat)
    requires k <= |a|
    ensures (a + b)[..k] == a[..k]
  {
  }

  lemma Within(a: seq<Message>, b: seq<Message>, k: nat)
    requires k <= |b|
    ensures (a + b)[..|a + b| - k] == a + b[..|b| - k]
  {
  }

  /** How many messages may be taken from the end: all, or those above the last system message. */
  function Removable(v: seq<Message>, preserve: bool): (n: nat)
    ensures n <= |v|
  {
    if preserve then RemovableTail(v) else |v|
  }

  function Without(v: seq<Message>, n: nat, preserve: bool): seq<Message> {
    v[..|v| - Min(n, Removable(v, preserve))]
  }

  /** A rollback cuts the list, and drops the anchor exactly when the anchored prefix is cut. */
  function RolledBack(v: View, n: nat, preserve: bool): View {
    var visible := Without(v.visible, n, preserve);
    View(visible, v.ratio, if v.anchor.Some? && |visible| < v.anchor.value.count then None else v.anchor)
  }

  /** The default preserves system messages, as the replay does. */
  lemma WithoutIsDropTail(v: seq<Message>, n: nat)
    ensures Without(v, n, true) == DropTail(v, n)
  {
  }

  lemma RemovableJoin(a: seq<Message>, b: seq<Message>, preserve: bool)
    ensures
      Removable(a + b, preserve)
      == if Removable(b, preserve) < |b| then Removable(b, preserve) else |b| + Removable(a, preserve)
  {
    RemovableConcat(a, b);
  }

  lemma WithoutNothing(v: seq<Message>, n: nat, preserve: bool)
    requires n == 0 || v == [] || (preserve && v[|v| - 1].role == System)
    ensures Without(v, n, preserve) == v
  {
  }

  lemma DropWholeSegment(a: seq<Message>, b: seq<Message>, n: nat, preserve: bool)
    requires Min(n, Removable(b, preserve)) == |b|
    ensures Without(a + b, n, preserve) == Without(a, n - |b|, preserve)
  {
    hide Removable;
    RemovableJoin(a, b, preserve);
    Front(a, b, |a| - Min(n - |b|, Removable(a, preserve)));
  }

  lemma DropWithinSegment(a: seq<Message>, b: seq<Message>, n: nat, preserve: bool)
    requires Min(n, Removable(b, preserve)) < |b|
    ensures
      var removable := Min(n, Removable(b, preserve));
      var rest := a + b[..|b| - removable];
      Without(a + b, n, preserve) == rest == Without(rest, n - removable, preserve)
  {
    var removable := Min(n, Removable(b, preserve));
    RemovableJoin(a, b, preserve);
    RemovableTailMeaning(b);
    Within(a, b, removable);
    WithoutNothing(a + b[..|b| - removable], n - removable, preserve);
  }

  lemma DropEnd(a: seq<Message>, b: seq<Message>, all: seq<Message>, n: nat, removable: nat, preserve: bool)
    requires all == a + b && removable == Min(n, Removable(b, preserve)) < |b|
    ensures removable <= n
    ensures
      var rest := all[..|all| - removable];
      Without(all, n, preserve) == rest == Without(rest, n - removable, preserve)
    ensures removable == 0 ==> all[..|all| - removable] == all
  {
    hide Removable, Without;
    DropWithinSegment(a, b, n, preserve);
    Within(a, b, removable);
  }

  /** Count from the end, up to `limit` and, if asked to, never past a system message. */
  method CountRemovableTail(messages: seq<Message>, limit: nat, preserve: bool) returns (removable: nat)
    requires limit > 0
    ensures removable == Min(limit, Removable(messages, preserve))
  {
    removable := 0;
    assert messages[..|messages|] == messages;
    while removable < |messages|
      invariant removable <= |messages| && removable < limit
      invariant Removable(messages, preserve) == removable + Removable(messages[..|messages| - removable], preserve)
    {
      var rest := messages[..|messages| - removable];
      if preserve && rest[|rest| - 1].role == System {
        break;
      }
      assert rest[..|rest| - 1] == messages[..|messages| - removable - 1];
      removable := removable + 1;
      if removable == limit {
        break;
      }
    }
  }

  /** A segment is never empty, and its cached count is the estimator's. */
  ghost predicate Costed(est: Option<Estimator>, segments: seq<Segment>) {
    forall i :: 0 <= i < |segments| ==>
      segments[i].messages != [] && segments[i].tokens == Cost(est, segments[i].messages)
  }

  /** Estimators that agree on the segments agree on the whole visible list. */
  lemma {:induction false} SameCosts(e: Option<Estimator>, f: Option<Estimator>, segments: seq<Segment>)
    requires Summable(e) && Summable(f) && Costed(e, segments) && Costed(f, segments)
    ensures Cost(e, Flat(segments)) == Cost(f, Flat(segments))
  {
    hide Cost;
    if segments == [] {
      CostSplits(e, [], []);
      CostSplits(f, [], []);
    } else {
      var n := |segments| - 1;
      SameCosts(e, f, segments[..n]);
      CostSplits(e, Flat(segments[..n]), segments[n].messages);
      CostSplits(f, Flat(segments[..n]), segments[n].messages);
    }
  }

  class ContextLengthTracker {
    const estimator: Option<Estimator>
    var segments: seq<Segment>
    var estimatedTokens: int
    var messageCount: int
    var ratio: real
    var anchor: Option<Anchor>
    ghost var Contents: seq<Message>  // the visible messages

    /** Segments are non-empty and exactly costed, and hold the visible messages; the totals are exact;
        the ratio is bounded and the anchor fits. */
    ghost predicate Valid()
      reads this
    {
      Shape() && Value().Wf()
    }

    ghost predicate Shape()
      reads this
    {
      && Summable(estimator)
      && Costed(estimator, segments)
      && Contents == Flat(segments)
      && estimatedTokens == Cost(estimator, Contents)
      && messageCount == |Contents|
    }

    ghost function Value(): View
      reads this
    {
      View(Contents, ratio, anchor)
    }

    constructor (estimator: Option<Estimator>)
      requires Summable(estimator)
      ensures Valid() && this.estimator == estimator && Value() == EMPTY
    {
      this.estimator := estimator;
      segments := [];
      estimatedTokens := 0;
      messageCount := 0;
      ratio := 1.0;
      anchor := None;
      Contents := [];
      new;
      CostSplits(estimator, [], []);
    }

    /** A replacement estimator takes over the counts cached by the old one: they are its own exactly when the two
        cost every segment alike. */
    method Clone(estimate: Option<Estimator>) returns (cloned: ContextLengthTracker)
      requires Valid() && Summable(estimate)
      ensures fresh(cloned) && cloned.estimator == (if estimate.None? then estimator else estimate)
      ensures cloned.Value() == Value() && cloned.segments == segments && cloned.estimatedTokens == estimatedTokens
      ensures cloned.Valid() <==> Costed(cloned.estimator, segments)
    {
      cloned := new ContextLengthTracker(if estimate.None? then estimator else estimate);
      cloned.segments := segments;
      cloned.estimatedTokens := estimatedTokens;
      cloned.messageCount := messageCount;
      cloned.ratio := ratio;
      cloned.anchor := anchor;
      cloned.Contents := Contents;
      if Costed(cloned.estimator, segments) {
        SameCosts(estimator, cloned.estimator, segments);
      }
    }

    method Reset()
      requires Valid()
      modifies this
      ensures Valid() && Value() == EMPTY
    {
      segments := [];
      estimatedTokens := 0;
      messageCount := 0;
      ratio := 1.0;
      anchor := None;
      Contents := [];
      CostSplits(estimator, [], []);
    }

    method VisibleMessages() returns (messages: seq<Message>)
      requires Valid()
      ensures messages == Value().visible
    {
      messages := [];
      for i := 0 to |segments|
        invariant messages == Flat(segments[..i])
      {
        assert segments[..i + 1][..i] == segments[..i];
        messages := messages + segments[i].messages;
      }
      assert segments[..|segments|] == segments;
    }

    method AppendMany(messages: seq<Message>)
      requires Valid()
      modifies this
      ensures Valid()
      ensures Value() == old(Value()).(visible := old(Value()).visible + messages)
    {
      if messages == [] {
        assert Contents + messages == Contents;
        return;
      }
      var tokens := Cost(estimator, messages);
      CostSplits(estimator, Contents, messages);
      FlatSnoc(segments, Segment(messages, tokens));
      segments := segments + [Segment(messages, tokens)];
      estimatedTokens := estimatedTokens + tokens;
      messageCount := messageCount + |messages|;
      Contents := Contents + messages;
    }

    /** Cut `removable` messages off the last segment. */
    method TrimLast(removable: nat)
      requires Shape() && segments != []
      requires 0 < removable < |segments[|segments| - 1].messages|
      modifies this`segments, this`estimatedTokens, this`messageCount, this`Contents
      ensures Shape()
      ensures removable <= |old(Contents)| && Contents == old(Contents)[..|old(Contents)| - removable]
    {
      var n := |segments| - 1;
      var segment := segments[n];
      ghost var front := Flat(segments[..n]);
      var keep := |segment.messages| - removable;
      var removed := segment.messages[keep..];
      assert segment.messages == segment.messages[..keep] + removed;
      CostSplits(estimator, segment.messages[..keep], removed);
      CostSplits(estimator, front, segment.messages);
      CostSplits(estimator, front, segment.messages[..keep]);
      var removedTokens := Cost(estimator, removed);
      var trimmed := Segment(segment.messages[..keep], Max0(segment.tokens - removedTokens));
      FlatSnoc(segments[..n], trimmed);
      segments := segments[..n] + [trimmed];
      estimatedTokens := estimatedTokens - removedTokens;
      messageCount := messageCount - removable;
      Contents := front + segment.messages[..keep];
    }

    /** Remove the last segment altogether. */
    method PopLast()
      requires Shape() && segments != []
      modifies this`segments, this`estimatedTokens, this`messageCount, this`Contents
      ensures Shape()
      ensures Contents == old(Flat(segments[..|segments| - 1]))
    {
      var segment := segments[|segments| - 1];
      CostSplits(estimator, Flat(segments[..|segments| - 1]), segment.messages);
      segments := segments[..|segments| - 1];
      estimatedTokens := estimatedTokens - segment.tokens;
      messageCount := messageCount - |segment.messages|;
      Contents := Flat(segments);
    }

    lemma LastSegment()
      requires Shape() && segments != []
      ensures segments[|segments| - 1].messages != []
      ensures Contents == Flat(segments[..|segments| - 1]) + segments[|segments| - 1].messages
    {
    }

    /** The whole last segment goes. */
    method GiveWhole(remaining: nat, preserve: bool)
      requires Shape() && segments != []
      requires var last := segments[|segments| - 1].messages; Min(remaining, Removable(last, preserve)) == |last|
      modifies this`segments, this`estimatedTokens, this`messageCount, this`Contents
      ensures Shape()
      ensures
        var given := |old(segments[|segments| - 1].messages)|;
        && given <= remaining && |Contents| + given == |old(Contents)|
        && Without(Contents, remaining - given, preserve) == Without(old(Contents), remaining, preserve)
    {
      hide Costed, Removable, Without, Cost, Summable;
      DropWholeSegment(Flat(segments[..|segments| - 1]), segments[|segments| - 1].messages, remaining, preserve);
      PopLast();
    }

    /** Only the removable end of the last segment goes. */
    method GiveWithin(remaining: nat, removable: nat, preserve: bool)
      requires Shape() && segments != []
      requires
        var last := segments[|segments| - 1].messages;
        removable == Min(remaining, Removable(last, preserve)) < |last|
      modifies this`segments, this`estimatedTokens, this`messageCount, this`Contents
      ensures Shape()
      ensures removable <= remaining && |Contents| + removable == |old(Contents)|
      ensures
        Without(Contents, remaining - removable, preserve) == Contents == Without(old(Contents), remaining, preserve)
    {
      hide Shape, Removable, Without, Flat;
      LastSegment();
      ghost var front, last := Flat(segments[..|segments| - 1]), segments[|segments| - 1].messages;
      DropEnd(front, last, Contents, remaining, removable, preserve);
      if removable > 0 {
        TrimLast(removable);
      }
    }

    /** One round of `rollback_last`: whatever the last segment can give. */
    method RollbackRound(remaining: nat, preserve: bool) returns (removable: nat)
      requires Shape() && segments != [] && remaining > 0
      modifies this`segments, this`estimatedTokens, this`messageCount, this`Contents
      ensures Shape()
      ensures removable <= remaining && |Contents| + removable == |old(Contents)|
      ensures Without(Contents, remaining - removable, preserve) == Without(old(Contents), remaining, preserve)
      ensures removable == 0 ==> Without(Contents, remaining, preserve) == Contents
    {
      hide Shape, Removable, Without;
      var segment := segments[|segments| - 1];
      LastSegment();
      removable := CountRemovableTail(segment.messages, remaining, preserve);
      if removable == |segment.messages| {
        GiveWhole(remaining, preserve);
      } else {
        GiveWithin(remaining, removable, preserve);
      }
    }

    /** A negative count counts as zero; with `preserve`, the default, this is the rollback of the replay. */
    method RollbackLast(count: int, preserve: bool) returns (removed: nat)
      requires Valid()
      modifies this
      ensures Valid()
      ensures Value() == RolledBack(old(Value()), Max0(count), preserve)
      ensures preserve ==> Value() == Hidden(old(Value()), Max0(count))
      ensures removed == |old(Value()).visible| - |Value().visible|
    {
      hide Without, Removable, Costed, Cost, Summable, DropTail;
      ghost var before := Contents;
      removed := 0;
      var remaining := Max0(count);
      while remaining > 0 && segments != []
        invariant Shape()
        invariant ratio == old(ratio) && anchor == old(anchor)
        invariant Without(Contents, remaining, preserve) == Without(before, Max0(count), preserve)
        invariant removed + |Contents| == |before|
        decreases remaining
      {
        var removable := RollbackRound(remaining, preserve);
        if removable == 0 {
          break;
        }
        removed := removed + removable;
        remaining := remaining - removable;
      }
      if remaining == 0 || segments == [] {
        WithoutNothing(Contents, remaining, preserve);
      }
      WithoutIsDropTail(before, Max0(count));
      estimatedTokens := Max0(estimatedTokens);
      messageCount := Max0(messageCount);
      if anchor.Some? && messageCount < anchor.value.count {
        anchor := None;
      }
    }

    method ReplaceVisible(messages: seq<Message>)
      requires Valid()
      modifies this
      ensures Valid() && Value() == Replaced(old(Value()), messages)
    {
      segments := [];
      estimatedTokens := 0;
      messageCount := 0;
      anchor := None;
      Contents := [];
      CostSplits(estimator, [], []);
      AppendMany(messages);
      assert [] + messages == messages;
    }

    /** The running total is the estimator's own answer for the whole visible list. */
    function RawEstimateWith(additional: seq<Message>): (tokens: int)
      reads this
      requires Valid()
      ensures tokens == RawEstimate(estimator, Value(), additional)
    {
      CostSplits(estimator, [], []);
      if additional == [] then estimatedTokens else estimatedTokens + Cost(estimator, additional)
    }

    function EstimateWith(additional: seq<Message>): (tokens: int)
      reads this
      requires Valid()
      ensures tokens == Estimate(estimator, Value(), additional)
    {
      var raw := RawEstimateWith(additional);
      if anchor.Some? && raw >= anchor.value.raw then
        Max0(anchor.value.observed + CalibrateTokens(raw - anchor.value.raw, ratio))
      else CalibrateTokens(raw, ratio)
    }

    method Calibrate(observed: int, rawEstimated: Option<int>)
      requires Valid()
      modifies this`ratio
      ensures Valid()
      ensures ratio == NextRatio(old(ratio), observed,
                                 if rawEstimated.None? then Cost(estimator, Contents) else rawEstimated.value)
    {
      var raw := if rawEstimated.None? then estimatedTokens else rawEstimated.value;
      if observed <= 0 || raw <= 0 {
        return;
      }
      ratio := NextRatio(ratio, observed, raw);
    }

    method AnchorObservedTokens(observed: int, rawEstimated: Option<int>)
      requires Valid()
      modifies this`ratio, this`anchor
      ensures Valid()
      ensures Value() == Anchored(old(Value()), observed,
                                  if rawEstimated.None? then Cost(estimator, Contents) else rawEstimated.value)
    {
      var raw := if rawEstimated.None? then estimatedTokens else rawEstimated.value;
      if observed <= 0 || raw <= 0 {
        return;
      }
      Calibrate(observed, Some(raw));
      anchor := Some(Anchor(messageCount, raw, observed));
    }

    method Matches(messages: seq<Message>) returns (same: bool)
      requires Valid()
      ensures same <==> messages == Value().visible
    {
      if |messages| != messageCount {
        return false;
      }
      var index := 0;
      for i := 0 to |segments|
        invariant index == |Flat(segments[..i])| <= |messages|
        invariant messages[..index] == Flat(segments[..i])
      {
        assert segments[..i + 1][..i] == segments[..i];
        FlatContains(segments, i + 1);
        ghost var start := index;
        for j := 0 to |segments[i].messages|
          invariant index == start + j <= |messages|
          invariant messages[..index] == Flat(segments[..i]) + segments[i].messages[..j]
        {
          assert Contents[index] == segments[i].messages[j];
          if messages[index] != segments[i].messages[j] {
            return false;
          }
          index := index + 1;
        }
        assert segments[i].messages[..|segments[i].messages|] == segments[i].messages;
      }
      assert segments[..|segments|] == segments;
      return true;
    }
  }
}
