/** What the model sees: the reference replay of an append-only conversation, and the two replays
    that the repository runs over finished traces. */
module Visibility {
  import opened Messages
  import opened Markers

  function Min(a: nat, b: nat): nat {
    if a <= b then a else b
  }

  function Max0(n: int): nat {
    if n > 0 then n else 0
  }

  /** How many trailing messages may be hidden: a system message is never passed. */
  function RemovableTail(v: seq<Message>): (n: nat)
    ensures n <= |v|
  {
    if v == [] || v[|v| - 1].role == System then 0 else 1 + RemovableTail(v[..|v| - 1])
  }

  /** The removable tail is the longest suffix without a system message. */
  lemma {:induction false} RemovableTailMeaning(v: seq<Message>)
    ensures var n := RemovableTail(v);
            && (forall i :: |v| - n <= i < |v| ==> v[i].role != System)
            && (n < |v| ==> v[|v| - n - 1].role == System)
  {
    if v != [] && v[|v| - 1].role != System {
      RemovableTailMeaning(v[..|v| - 1]);
    }
  }

  /** Hide the last `n` messages, stopping at a system message. */
  function DropTail(v: seq<Message>, n: nat): seq<Message> {
    v[..|v| - Min(n, RemovableTail(v))]
  }

  /** Carry out the effect of message `m` on the visible conversation; a splice that does not fit does nothing. */
  function Perform(visible: seq<Message>, m: Message, effect: Effect): seq<Message> {
    match effect
    case Show => visible + [m]
    case Hide(n) => DropTail(visible, n)
    case Summarise(c) => var r := SpliceCompaction(visible, c); if r.Some? then r.value else visible
    case Keep(d) => var r := SpliceDiscardAll(visible, d); if r.Some? then r.value else visible
    case Ignore => visible
  }

  /** The visible conversation after one more message of the log. */
  function Apply(visible: seq<Message>, m: Message): seq<Message> {
    Perform(visible, m, EffectOf(m))
  }

  /** The reference: replay a log, one message at a time, on top of what is already visible. */
  function Replay(visible: seq<Message>, log: seq<Message>): seq<Message> {
    if log == [] then visible
    else Apply(Replay(visible, log[..|log| - 1]), log[|log| - 1])
  }

  lemma {:induction false} ReplayConcat(v: seq<Message>, a: seq<Message>, b: seq<Message>)
    ensures Replay(v, a + b) == Replay(Replay(v, a), b)
  {
    if b == [] {
      assert a + b == a;
    } else {
      var n := |b| - 1;
      assert (a + b)[..|a + b| - 1] == a + b[..n];
      ReplayConcat(v, a, b[..n]);
    }
  }

  function Flatten(batches: seq<seq<Message>>): seq<Message> {
    if batches == [] then [] else Flatten(batches[..|batches| - 1]) + batches[|batches| - 1]
  }

  function ReplayBatches(v: seq<Message>, batches: seq<seq<Message>>): seq<Message> {
    if batches == [] then v else Replay(ReplayBatches(v, batches[..|batches| - 1]), batches[|batches| - 1])
  }

  /** However a log is cut into append batches, the visible conversation is the same. */
  lemma {:induction false} BatchesDoNotMatter(v: seq<Message>, batches: seq<seq<Message>>)
    ensures ReplayBatches(v, batches) == Replay(v, Flatten(batches))
  {
    if batches != [] {
      var n := |batches| - 1;
      BatchesDoNotMatter(v, batches[..n]);
      ReplayConcat(v, Flatten(batches[..n]), batches[n]);
    }
  }

  lemma DropTailStep(v: seq<Message>, n: nat)
    requires v != [] && v[|v| - 1].role != System && n > 0
    ensures DropTail(v, n) == DropTail(v[..|v| - 1], n - 1)
  {
  }

  lemma DropNothing(v: seq<Message>, n: nat)
    requires n == 0 || v == [] || v[|v| - 1].role == System
    ensures DropTail(v, n) == v
  {
  }

  /** Plain messages are appended as they are. */
  lemma {:induction false} ReplayPlain(v: seq<Message>, ms: seq<Message>)
    requires forall i :: 0 <= i < |ms| ==> ms[i].role != Runtime
    ensures Replay(v, ms) == v + ms
  {
    if ms == [] {
      assert v + ms == v;
    } else {
      var n := |ms| - 1;
      ReplayPlain(v, ms[..n]);
      assert v + ms[..n] + [ms[n]] == v + ms;
    }
  }

  // ---------- What each marker does ----------

  /** A rollback marker hides messages from the end, as many as it says, and fewer only in front of a system message or
      at the beginning; no system message is hidden. */
  lemma RollbackActs(v: seq<Message>, n: nat, reason: string)
    requires n > 0
    ensures
      var r := Apply(v, BuildRollback(n, reason));
      && r <= v && |v| - |r| <= n
      && (forall i :: |r| <= i < |v| ==> v[i].role != System)
      && (|v| - |r| < n ==> r == [] || r[|r| - 1].role == System)
  {
    MarkersRoundTrip(n, reason, Compaction(Plain(""), 0, 1), DiscardAll(0));
    RemovableTailMeaning(v);
  }

  /** A compaction marker puts one assistant message with its summary in the place of its range; a discard marker keeps
      its prefix. Where the range or the prefix does not fit, nothing changes. */
  lemma SplicesAct(v: seq<Message>, c: Compaction, d: DiscardAll)
    requires c.compressedCount > 0
    ensures
      var r, end := Apply(v, BuildCompaction(c)), c.prefixLen + c.compressedCount;
      if end > |v| then r == v
      else
        && |r| == |v| - c.compressedCount + 1
        && (forall i :: 0 <= i < c.prefixLen ==> r[i] == v[i])
        && r[c.prefixLen].role == Assistant && r[c.prefixLen].content == Some(c.summary)
        && r[c.prefixLen].toolCalls.None? && r[c.prefixLen].toolCallId.None?
        && (forall i :: c.prefixLen < i < |r| ==> r[i] == v[i + c.compressedCount - 1])
    ensures
      var r := Apply(v, BuildDiscardAll(d));
      if d.prefixLen > |v| then r == v else |r| == d.prefixLen && forall i :: 0 <= i < |r| ==> r[i] == v[i]
  {
    MarkersRoundTrip(1, "", c, d);
  }

  /** A runtime message that is no marker, or a malformed one, changes nothing: no JSON object, no or another name, a
      count that is not a positive integer, a prefix that is not a natural number, no summary. */
  lemma MalformedIgnored(v: seq<Message>, m: Message, fields: Dict)
    requires m.role == Runtime
    requires
      || m.content.None? || m.content.value.Plain?
      || (m.content.value.json.Obj? && m.content.value.json.fields == fields
          && match m.name
             case Some("rollback") =>
               !Positive(Get(fields, "rollback_message_count")) && !IsTrue(Get(fields, "rollback_message_count"))
             case Some("compaction") =>
               || !IsText(Get(fields, "summary")) || !Natural(Get(fields, "prefix_len"))
               || !Positive(Get(fields, "compressed_count"))
             case Some("discard_all") => !Natural(Get(fields, "prefix_len"))
             case _ => true)
    ensures Apply(v, m) == v
  {
  }

  /** A rollback count of `true` counts as one. */
  lemma TrueHidesOne(v: seq<Message>, m: Message)
    requires m.role == Runtime && m.name == Some("rollback")
    requires m.content == Some(Dumps(Obj(map["rollback_message_count" := Bool(true)])))
    ensures Apply(v, m) == if v == [] || v[|v| - 1].role == System then v else v[..|v| - 1]
  {
  }

  predicate Positive(v: Option<Json>) {
    v.Some? && v.value.Int? && v.value.i > 0
  }

  predicate Natural(v: Option<Json>) {
    v.Some? && v.value.Int? && v.value.i >= 0
  }

  predicate IsTrue(v: Option<Json>) {
    v == Some(Bool(true))
  }

  predicate IsText(v: Option<Json>) {
    v.Some? && v.value.Str?
  }

  /** The replay of a loaded trace. */
  method MaterializeVisibleConversation(messages: seq<Message>) returns (visible: seq<Message>)
    ensures visible == Replay([], messages)
  {
    visible := [];
    for i := 0 to |messages|
      invariant visible == Replay([], messages[..i])
    {
      var message := messages[i];
      assert messages[..i + 1][..i] == messages[..i];
      var remaining := ParseRollback(message);
      if remaining > 0 {
        ghost var before := visible;
        while remaining > 0 && visible != []
          invariant DropTail(visible, remaining) == DropTail(before, ParseRollback(message))
          decreases remaining
        {
          if visible[|visible| - 1].role == System {
            break;
          }
          DropTailStep(visible, remaining);
          visible := visible[..|visible| - 1];
          remaining := remaining - 1;
        }
        DropNothing(visible, remaining);
        continue;
      }
      var compaction := ParseCompaction(message);
      if compaction.Some? {
        var spliced := SpliceCompaction(visible, compaction.value);
        if spliced.Some? {
          visible := spliced.value;
        }
        continue;
      }
      var discard := ParseDiscardAll(message);
      if discard.Some? {
        var truncated := SpliceDiscardAll(visible, discard.value);
        if truncated.Some? {
          visible := truncated.value;
        }
        continue;
      }
      if message.role != Runtime {
        visible := visible + [message];
      }
    }
    assert messages[..|messages|] == messages;
  }

  // ---------- Replay and the dictionary round trip ----------

  lemma {:induction false} RemovableNormal(v: seq<Message>)
    ensures RemovableTail(NormalAll(v)) == RemovableTail(v)
  {
    if v != [] && v[|v| - 1].role != System {
      assert NormalAll(v)[..|v| - 1] == NormalAll(v[..|v| - 1]);
      RemovableNormal(v[..|v| - 1]);
    }
  }

  lemma NormalSlices(v: seq<Message>, lo: nat, hi: nat)
    requires lo <= hi <= |v|
    ensures NormalAll(v)[lo..hi] == NormalAll(v[lo..hi])
    ensures lo == 0 ==> NormalAll(v)[..hi] == NormalAll(v[..hi])
  {
  }

  lemma PerformNormal(v: seq<Message>, m: Message, effect: Effect)
    ensures Perform(NormalAll(v), Normal(m), effect) == NormalAll(Perform(v, m, effect))
  {
    var nv := NormalAll(v);
    match effect
    case Show =>
      assert NormalAll(v + [m]) == nv + [Normal(m)];
    case Hide(n) =>
      RemovableNormal(v);
      NormalSlices(v, 0, |v| - Min(n, RemovableTail(v)));
    case Summarise(c) =>
      var boundary := c.prefixLen + c.compressedCount;
      if boundary <= |v| {
        var s := AssistantMessage(c.summary);
        assert nv[..c.prefixLen] + [s] + nv[boundary..] == NormalAll(v[..c.prefixLen] + [s] + v[boundary..]);
      }
    case Keep(d) =>
      if d.prefixLen <= |v| {
        NormalSlices(v, 0, d.prefixLen);
      }
    case Ignore =>
  }

  lemma EffectNormal(m: Message)
    ensures EffectOf(Normal(m)) == EffectOf(m)
  {
  }

  lemma {:induction false} ReplayNormal(v: seq<Message>, log: seq<Message>)
    ensures Replay(NormalAll(v), NormalAll(log)) == NormalAll(Replay(v, log))
  {
    hide EffectOf, Perform, Normal;
    if log != [] {
      var n := |log| - 1;
      ReplayNormal(v, log[..n]);
      assert NormalAll(log)[..n] == NormalAll(log[..n]);
      EffectNormal(log[n]);
      PerformNormal(Replay(v, log[..n]), log[n], EffectOf(log[n]));
    }
  }

  /** Loading a persisted trace and replaying it gives the visible conversation of the live log,
      up to empty tool-call lists. */
  lemma {:induction false} TraceReplays(log: seq<Message>)
    ensures FromDicts(ToDicts(log), true).Some?
    ensures Replay([], FromDicts(ToDicts(log), true).value) == NormalAll(Replay([], log))
  {
    TraceRoundTrip(log);
    ReplayNormal([], log);
    assert NormalAll([]) == [];
  }
}
