/** The runtime markers that hide, summarise or discard visible messages: wire format, parsers and splices. */
module Markers {
  import opened Messages

  const ROLLBACK := "rollback"
  const COMPACTION := "compaction"
  const DISCARD_ALL := "discard_all"

  datatype Compaction = Compaction(summary: Text, prefixLen: nat, compressedCount: nat)

  datatype DiscardAll = DiscardAll(prefixLen: nat)

  // ---------- Producers ----------

  function BuildRollback(count: nat, reason: string): Message {
    RuntimeMessage(Dumps(Obj(map["rollback_message_count" := Int(count), "reason" := Str(Plain(reason))])), ROLLBACK)
  }

  function BuildCompaction(c: Compaction): Message {
    RuntimeMessage(
      Dumps(Obj(map["summary" := Str(c.summary), "prefix_len" := Int(c.prefixLen),
                    "compressed_count" := Int(c.compressedCount)])),
      COMPACTION)
  }

  function BuildDiscardAll(d: DiscardAll): Message {
    RuntimeMessage(Dumps(Obj(map["prefix_len" := Int(d.prefixLen)])), DISCARD_ALL)
  }

  // ---------- Parsers ----------

  /** The JSON object a marker carries, if its content decodes to one. */
  function PayloadOf(content: Option<Text>): Option<Dict> {
    if content.None? then None else
    match Loads(content.value)
    case Some(Obj(fields)) => Some(fields)
    case _ => None
  }

  /** The hidden-message count of a rollback payload. `true` is an int to Python, and counts as one. */
  function RollbackCount(payload: Option<Dict>): nat {
    if payload.None? then 0 else
    match Get(payload.value, "rollback_message_count")
    case Some(Int(n)) => if n > 0 then n else 0
    case Some(Bool(b)) => if b then 1 else 0
    case _ => 0
  }

  /** Unlike a rollback count, the numbers of a splice must not be booleans. */
  function CompactionOf(payload: Option<Dict>): Option<Compaction> {
    if payload.None? then None else
    match (Get(payload.value, "summary"), Get(payload.value, "prefix_len"), Get(payload.value, "compressed_count"))
    case (Some(Str(summary)), Some(Int(prefix)), Some(Int(count))) =>
      if prefix < 0 || count <= 0 then None else Some(Compaction(summary, prefix, count))
    case _ => None
  }

  function DiscardAllOf(payload: Option<Dict>): Option<DiscardAll> {
    if payload.None? then None else
    match Get(payload.value, "prefix_len")
    case Some(Int(prefix)) => if prefix < 0 then None else Some(DiscardAll(prefix))
    case _ => None
  }

  function ParseRollback(m: Message): nat {
    if m.role != Runtime || m.name != Some(ROLLBACK) then 0 else RollbackCount(PayloadOf(m.content))
  }

  function ParseCompaction(m: Message): Option<Compaction> {
    if m.role != Runtime || m.name != Some(COMPACTION) then None else CompactionOf(PayloadOf(m.content))
  }

  function ParseDiscardAll(m: Message): Option<DiscardAll> {
    if m.role != Runtime || m.name != Some(DISCARD_ALL) then None else DiscardAllOf(PayloadOf(m.content))
  }

  // The same parsers over the dictionary form of a trace.

  predicate NamedDict(d: Dict, name: string) {
    Get(d, "name") == Some(Str(Plain(name)))
  }

  function DictPayload(d: Dict): Option<Dict> {
    match Get(d, "content")
    case Some(Str(t)) => PayloadOf(Some(t))
    case _ => None
  }

  function ParseRollbackDict(d: Dict): nat {
    if !NamedDict(d, ROLLBACK) then 0 else RollbackCount(DictPayload(d))
  }

  function ParseCompactionDict(d: Dict): Option<Compaction> {
    if !IsRuntimeDict(d) || !NamedDict(d, COMPACTION) then None else CompactionOf(DictPayload(d))
  }

  function ParseDiscardAllDict(d: Dict): Option<DiscardAll> {
    if !IsRuntimeDict(d) || !NamedDict(d, DISCARD_ALL) then None else DiscardAllOf(DictPayload(d))
  }

  // ---------- What a message of the log does to the visible conversation ----------

  datatype Effect = Show | Hide(count: nat) | Summarise(compaction: Compaction) | Keep(discard: DiscardAll) | Ignore

  function EffectOf(m: Message): Effect {
    if m.role != Runtime then Show
    else if ParseRollback(m) > 0 then Hide(ParseRollback(m))
    else if ParseCompaction(m).Some? then Summarise(ParseCompaction(m).value)
    else if ParseDiscardAll(m).Some? then Keep(ParseDiscardAll(m).value)
    else Ignore
  }

  function EffectOfDict(d: Dict): Effect {
    if !IsRuntimeDict(d) then Show
    else if ParseRollbackDict(d) > 0 then Hide(ParseRollbackDict(d))
    else if ParseCompactionDict(d).Some? then Summarise(ParseCompactionDict(d).value)
    else if ParseDiscardAllDict(d).Some? then Keep(ParseDiscardAllDict(d).value)
    else Ignore
  }

  // ---------- Splices ----------

  /** Replace the compressed range by the summary; None when the range does not fit. */
  function SpliceCompaction(visible: seq<Message>, c: Compaction): Option<seq<Message>> {
    var boundary := c.prefixLen + c.compressedCount;
    if boundary > |visible| then None
    else Some(visible[..c.prefixLen] + [AssistantMessage(c.summary)] + visible[boundary..])
  }

  /** Keep the leading messages only; None when the prefix does not fit. */
  function SpliceDiscardAll(visible: seq<Message>, d: DiscardAll): Option<seq<Message>> {
    if d.prefixLen > |visible| then None else Some(visible[..d.prefixLen])
  }

  // ---------- Producers and parsers agree ----------

  /** Each parser inverts its producer, and reads nothing from the other two markers. */
  lemma MarkersRoundTrip(n: nat, reason: string, c: Compaction, d: DiscardAll)
    requires c.compressedCount > 0
    ensures ParseRollback(BuildRollback(n, reason)) == n
    ensures ParseCompaction(BuildCompaction(c)) == Some(c)
    ensures ParseDiscardAll(BuildDiscardAll(d)) == Some(d)
    ensures ParseCompaction(BuildRollback(n, reason)).None? && ParseDiscardAll(BuildRollback(n, reason)).None?
    ensures ParseRollback(BuildCompaction(c)) == 0 && ParseDiscardAll(BuildCompaction(c)).None?
    ensures ParseRollback(BuildDiscardAll(d)) == 0 && ParseCompaction(BuildDiscardAll(d)).None?
  {
  }

  /** The dictionary parsers read from `ToDict(m)` what the message parsers read from `m`. */
  lemma DictParsersAgree(m: Message)
    ensures EffectOfDict(ToDict(m)) == EffectOf(m)
  {
    var d := ToDict(m);
    assert Get(d, "role") == Field(m, "role");
    assert Get(d, "content") == Field(m, "content");
    assert Get(d, "name") == Field(m, "name");
    assert RoleOf(RoleName(m.role)) == m.role;
    assert DictPayload(d) == PayloadOf(m.content);
  }
}
