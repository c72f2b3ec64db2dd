/** The third replay: the SFT exporter works on trace dictionaries and keeps the source index of each
    visible message. */
module SftExport {
  import opened Messages
  import opened Markers
  import opened Visibility

  predicate IsSystemDict(d: Dict) {
    Get(d, "role") == Some(Str(Plain(RoleName(System))))
  }

  function SummaryDict(summary: Text): Dict {
    map["role" := Str(Plain(RoleName(Assistant))), "content" := Str(summary)]
  }

  function RemovableDicts(v: seq<Dict>): (n: nat)
    ensures n <= |v|
  {
    if v == [] || IsSystemDict(v[|v| - 1]) then 0 else 1 + RemovableDicts(v[..|v| - 1])
  }

  function DropDicts(v: seq<Dict>, n: nat): seq<Dict> {
    v[..|v| - Min(n, RemovableDicts(v))]
  }

  function SpliceDicts(visible: seq<Dict>, c: Compaction): seq<Dict> {
    var boundary := c.prefixLen + c.compressedCount;
    if boundary > |visible| then visible
    else visible[..c.prefixLen] + [SummaryDict(c.summary)] + visible[boundary..]
  }

  function KeepDicts(visible: seq<Dict>, d: DiscardAll): seq<Dict> {
    if d.prefixLen > |visible| then visible else visible[..d.prefixLen]
  }

  function PerformDict(visible: seq<Dict>, d: Dict, effect: Effect): seq<Dict> {
    match effect
    case Show => visible + [d]
    case Hide(n) => DropDicts(visible, n)
    case Summarise(c) => SpliceDicts(visible, c)
    case Keep(k) => KeepDicts(visible, k)
    case Ignore => visible
  }

  function ReplayDicts(conversation: seq<Dict>): seq<Dict> {
    if conversation == [] then []
    else
      var d := conversation[|conversation| - 1];
      PerformDict(ReplayDicts(conversation[..|conversation| - 1]), d, EffectOfDict(d))
  }

  // ---------- Agreement with the reference replay ----------

  lemma {:induction false} RemovableDictsAgree(v: seq<Message>)
    ensures RemovableDicts(ToDicts(v)) == RemovableTail(v)
  {
    if v != [] {
      var n := |v| - 1;
      assert Get(ToDict(v[n]), "role") == Field(v[n], "role");
      assert RoleOf(RoleName(v[n].role)) == v[n].role;
      assert ToDicts(v)[..n] == ToDicts(v[..n]);
      RemovableDictsAgree(v[..n]);
    }
  }

  lemma SummaryAgrees(summary: Text)
    ensures ToDict(AssistantMessage(summary)) == SummaryDict(summary)
  {
  }

  lemma PerformDictAgrees(v: seq<Message>, m: Message, effect: Effect)
    ensures PerformDict(ToDicts(v), ToDict(m), effect) == ToDicts(Perform(v, m, effect))
  {
    hide ToDict, SummaryDict, RemovableDicts, RemovableTail;
    var dv := ToDicts(v);
    match effect
    case Show =>
      assert ToDicts(v + [m]) == dv + [ToDict(m)];
    case Hide(n) =>
      RemovableDictsAgree(v);
      var k := |v| - Min(n, RemovableTail(v));
      assert ToDicts(v[..k]) == dv[..k];
    case Summarise(c) =>
      var boundary := c.prefixLen + c.compressedCount;
      SummaryAgrees(c.summary);
      if boundary <= |v| {
        assert ToDicts(v[..c.prefixLen] + [AssistantMessage(c.summary)] + v[boundary..])
            == dv[..c.prefixLen] + [SummaryDict(c.summary)] + dv[boundary..];
      }
    case Keep(d) =>
      if d.prefixLen <= |v| {
        assert ToDicts(v[..d.prefixLen]) == dv[..d.prefixLen];
      }
    case Ignore =>
  }

  /** On the dictionary form of any log, the exporter shows exactly what the reference replay shows. */
  lemma {:induction false} ReplayDictsAgrees(log: seq<Message>)
    ensures ReplayDicts(ToDicts(log)) == ToDicts(Replay([], log))
  {
    if log != [] {
      var n := |log| - 1;
      ReplayDictsAgrees(log[..n]);
      assert ToDicts(log)[..n] == ToDicts(log[..n]);
      DictParsersAgree(log[n]);
      PerformDictAgrees(Replay([], log[..n]), log[n], EffectOf(log[n]));
    }
  }

  // ---------- The exporter's loop ----------

  function Payloads(v: seq<(nat, Dict)>): (r: seq<Dict>)
    ensures |r| == |v| && forall i :: 0 <= i < |v| ==> r[i] == v[i].1
  {
    seq(|v|, i requires 0 <= i < |v| => v[i].1)
  }

  /** A visible entry is either the ordinary message at its source index or the summary of the
      compaction marker found there. */
  predicate ComesFrom(conversation: seq<Dict>, e: (nat, Dict)) {
    && e.0 < |conversation|
    && match EffectOfDict(conversation[e.0])
       case Show => e.1 == conversation[e.0]
       case Summarise(c) => e.1 == SummaryDict(c.summary)
       case _ => false
  }

  /** Every entry is traced to its source, and no source index is used twice. */
  ghost predicate Sourced(conversation: seq<Dict>, v: seq<(nat, Dict)>, upTo: nat) {
    && (forall i :: 0 <= i < |v| ==> ComesFrom(conversation, v[i]) && v[i].0 < upTo)
    && (forall i, j :: 0 <= i < j < |v| ==> v[i].0 != v[j].0)
  }

  lemma DropDictsStep(v: seq<Dict>, n: nat)
    requires v != [] && !IsSystemDict(v[|v| - 1]) && n > 0
    ensures DropDicts(v, n) == DropDicts(v[..|v| - 1], n - 1)
  {
  }

  /** Pop up to `count` entries, stopping at a system message. */
  method PopTail(before: seq<(nat, Dict)>, count: nat) returns (visible: seq<(nat, Dict)>)
    ensures Payloads(visible) == DropDicts(Payloads(before), count)
    ensures visible <= before
  {
    visible := before;
    var remaining := count;
    while remaining > 0 && visible != []
      invariant visible <= before
      invariant DropDicts(Payloads(visible), remaining) == DropDicts(Payloads(before), count)
      decreases remaining
    {
      if IsSystemDict(visible[|visible| - 1].1) {
        break;
      }
      DropDictsStep(Payloads(visible), remaining);
      assert Payloads(visible)[..|visible| - 1] == Payloads(visible[..|visible| - 1]);
      visible := visible[..|visible| - 1];
      remaining := remaining - 1;
    }
    assert DropDicts(Payloads(visible), remaining) == Payloads(visible);
  }

  /** One iteration of the exporter: the entry list after message `idx`. */
  method ApplyOne(conversation: seq<Dict>, idx: nat, before: seq<(nat, Dict)>) returns (visible: seq<(nat, Dict)>)
    requires idx < |conversation| && Sourced(conversation, before, idx)
    ensures Payloads(visible) == PerformDict(Payloads(before), conversation[idx], EffectOfDict(conversation[idx]))
    ensures Sourced(conversation, visible, idx + 1)
  {
    var message := conversation[idx];
    var shown := Payloads(before);
    if !IsRuntimeDict(message) {
      visible := before + [(idx, message)];
      assert Payloads(visible) == shown + [message];
      return;
    }
    var count := ParseRollbackDict(message);
    if count > 0 {
      visible := PopTail(before, count);
      return;
    }
    var compaction := ParseCompactionDict(message);
    if compaction.Some? {
      var c := compaction.value;
      assert EffectOfDict(message) == Summarise(c);
      visible := SpliceEntries(conversation, idx, before, c);
      return;
    }
    var discard := ParseDiscardAllDict(message);
    if discard.Some? {
      assert EffectOfDict(message) == Keep(discard.value);
      visible := before;
      if discard.value.prefixLen <= |before| {
        visible := before[..discard.value.prefixLen];
        assert Payloads(visible) == shown[..discard.value.prefixLen];
      }
      return;
    }
    visible := before;
  }

  method SpliceEntries(conversation: seq<Dict>, idx: nat, before: seq<(nat, Dict)>, c: Compaction)
    returns (visible: seq<(nat, Dict)>)
    requires idx < |conversation| && Sourced(conversation, before, idx)
    requires EffectOfDict(conversation[idx]) == Summarise(c)
    ensures Payloads(visible) == SpliceDicts(Payloads(before), c)
    ensures Sourced(conversation, visible, idx + 1)
  {
    hide EffectOfDict, SummaryDict, Sourced;
    var boundary := c.prefixLen + c.compressedCount;
    if boundary > |before| {
      SourcedLater(conversation, before, idx);
      return before;
    }
    var entry := (idx, SummaryDict(c.summary));
    visible := before[..c.prefixLen] + [entry] + before[boundary..];
    assert Payloads(visible) == SpliceDicts(Payloads(before), c);
    assert ComesFrom(conversation, entry);
    SplicedSourced(conversation, idx, before, entry, c.prefixLen, boundary);
  }

  lemma SourcedLater(conversation: seq<Dict>, v: seq<(nat, Dict)>, upTo: nat)
    requires Sourced(conversation, v, upTo)
    ensures Sourced(conversation, v, upTo + 1)
  {
  }

  lemma SplicedSourced(conversation: seq<Dict>, idx: nat, before: seq<(nat, Dict)>, entry: (nat, Dict),
                       prefix: nat, boundary: nat)
    requires Sourced(conversation, before, idx) && ComesFrom(conversation, entry) && entry.0 == idx
    requires prefix <= boundary <= |before|
    ensures Sourced(conversation, before[..prefix] + [entry] + before[boundary..], idx + 1)
  {
    hide ComesFrom;
    var visible := before[..prefix] + [entry] + before[boundary..];
    forall i | 0 <= i < |visible| ensures visible[i] == if i < prefix then before[i] else if i == prefix then entry
                                                         else before[i - prefix - 1 + boundary] {
    }
  }

  method ApplyRuntimeVisibility(conversation: seq<Dict>) returns (visible: seq<(nat, Dict)>)
    ensures Payloads(visible) == ReplayDicts(conversation)
    ensures Sourced(conversation, visible, |conversation|)
  {
    visible := [];
    for idx := 0 to |conversation|
      invariant Payloads(visible) == ReplayDicts(conversation[..idx])
      invariant Sourced(conversation, visible, idx)
    {
      assert conversation[..idx + 1][..idx] == conversation[..idx];
      visible := ApplyOne(conversation, idx, visible);
    }
    assert conversation[..|conversation|] == conversation;
  }
}
