/** Conversation messages, tool calls, and the dictionary form they take in a persisted trace. */
module Messages {

  datatype Option<+T> = None | Some(value: T)

  /** A string as `json.loads` sees it: `Encoded(v)` decodes to `v`; `Plain(s)` is a text whose decoding
      fails or is never asked for. */
  datatype Text = Plain(chars: string) | Encoded(json: Json)

  datatype Json =
    | Null
    | Bool(b: bool)
    | Int(i: int)
    | Float(r: real)
    | Str(text: Text)
    | Arr(items: seq<Json>)
    | Obj(fields: map<string, Json>)

  type Dict = map<string, Json>

  function Loads(t: Text): Option<Json> {
    match t
    case Plain(_) => None
    case Encoded(v) => Some(v)
  }

  function Dumps(v: Json): Text {
    Encoded(v)
  }

  datatype Role = System | User | Assistant | Tool | Runtime

  datatype ToolCall = ToolCall(id: string, name: string, arguments: Dict)

  datatype Message = Message(
    role: Role,
    content: Option<Text>,
    reasoning: Option<Text>,
    thought: Option<Text>,
    toolCalls: Option<seq<ToolCall>>,
    name: Option<string>,
    toolCallId: Option<string>)
  {
    /** Python truthiness of `message.tool_calls`. */
    predicate HasToolCalls() {
      toolCalls.Some? && toolCalls.value != []
    }

    /** Python truthiness of `message.content`. */
    predicate HasContent() {
      content.Some? && content.value != Plain("")
    }
  }

  function SystemMessage(content: Text): Message {
    Message(System, Some(content), None, None, None, None, None)
  }

  function UserMessage(content: Text): Message {
    Message(User, Some(content), None, None, None, None, None)
  }

  function AssistantMessage(content: Text): Message {
    Message(Assistant, Some(content), None, None, None, None, None)
  }

  function ToolMessage(content: Text, callId: string, name: string): Message {
    Message(Tool, Some(content), None, None, None, Some(name), Some(callId))
  }

  function RuntimeMessage(content: Text, name: string): Message {
    Message(Runtime, Some(content), None, None, None, Some(name), None)
  }

  // ---------- The dictionary form ----------

  function RoleName(r: Role): string {
    match r
    case System => "system"
    case User => "user"
    case Assistant => "assistant"
    case Tool => "tool"
    case Runtime => "ConversationRuntime"
  }

  /** The role map of the trace reader: an unknown role reads as a user message. */
  function RoleOf(name: string): (r: Role)
    ensures forall role: Role :: RoleName(role) == name ==> r == role
  {
    if name == "system" then System
    else if name == "assistant" then Assistant
    else if name == "tool" then Tool
    else if name == "ConversationRuntime" then Runtime
    else User
  }

  function EncodeCall(tc: ToolCall): Json {
    Obj(map[
      "id" := Str(Plain(tc.id)),
      "type" := Str(Plain("function")),
      "function" := Obj(map["name" := Str(Plain(tc.name)), "arguments" := Str(Dumps(Obj(tc.arguments)))])])
  }

  function TextField(t: Option<Text>): Option<Json> {
    if t.Some? then Some(Str(t.value)) else None
  }

  function StringField(s: Option<string>): Option<Json> {
    if s.Some? then Some(Str(Plain(s.value))) else None
  }

  function CallsField(calls: Option<seq<ToolCall>>): Option<Json> {
    if calls.Some? then Some(Arr(seq(|calls.value|, i requires 0 <= i < |calls.value| => EncodeCall(calls.value[i]))))
    else None
  }

  /** What the dictionary of `m` holds under key `k`, if anything. */
  function Field(m: Message, k: string): Option<Json> {
    if k == "role" then Some(Str(Plain(RoleName(m.role))))
    else if k == "content" then TextField(m.content)
    else if k == "reasoning_content" then TextField(m.reasoning)
    else if k == "visible_thought" then TextField(m.thought)
    else if k == "tool_calls" then CallsField(m.toolCalls)
    else if k == "name" then StringField(m.name)
    else if k == "tool_call_id" then StringField(m.toolCallId)
    else None
  }

  const KEYS: set<string> :=
    {"role", "content", "reasoning_content", "visible_thought", "tool_calls", "name", "tool_call_id"}

  /** The dictionary form of a message: one key per attribute that is not None. */
  function ToDict(m: Message): (d: Dict)
    ensures forall k {:trigger Field(m, k)} :: Get(d, k) == Field(m, k)
  {
    FieldsOf(m, KEYS)
  }

  /** The attributes under some of the keys. */
  function FieldsOf(m: Message, keys: set<string>): Dict {
    map k | k in keys && Field(m, k).Some? :: Field(m, k).value
  }

  lemma NewField(m: Message, keys: set<string>, k: string)
    requires k !in keys
    ensures
      FieldsOf(m, keys + {k}) ==
        if Field(m, k).Some? then FieldsOf(m, keys)[k := Field(m, k).value] else FieldsOf(m, keys)
  {
  }

  function Get(d: Dict, k: string): Option<Json> {
    if k in d then Some(d[k]) else None
  }

  function ToDicts(ms: seq<Message>): (ds: seq<Dict>)
    ensures |ds| == |ms| && forall i :: 0 <= i < |ms| ==> ds[i] == ToDict(ms[i])
  {
    seq(|ms|, i requires 0 <= i < |ms| => ToDict(ms[i]))
  }

  method ToModelMessage(m: Message) returns (payload: Dict)
    ensures payload == ToDict(m)
  {
    hide FieldsOf, EncodeCall;
    payload := map["role" := Str(Plain(RoleName(m.role)))];
    RoleField(m);
    ghost var keys := {"role"};
    NewField(m, keys, "content");
    if m.content.Some? {
      payload := payload["content" := Str(m.content.value)];
    }
    keys := keys + {"content"};
    NewField(m, keys, "reasoning_content");
    if m.reasoning.Some? {
      payload := payload["reasoning_content" := Str(m.reasoning.value)];
    }
    keys := keys + {"reasoning_content"};
    NewField(m, keys, "visible_thought");
    if m.thought.Some? {
      payload := payload["visible_thought" := Str(m.thought.value)];
    }
    keys := keys + {"visible_thought"};
    NewField(m, keys, "tool_calls");
    if m.toolCalls.Some? {
      var calls: seq<Json> := [];
      for i := 0 to |m.toolCalls.value|
        invariant |calls| == i && forall j :: 0 <= j < i ==> calls[j] == EncodeCall(m.toolCalls.value[j])
      {
        calls := calls + [EncodeCall(m.toolCalls.value[i])];
      }
      assert calls == CallsField(m.toolCalls).value.items;
      payload := payload["tool_calls" := Arr(calls)];
    }
    keys := keys + {"tool_calls"};
    NewField(m, keys, "name");
    if m.name.Some? {
      payload := payload["name" := Str(Plain(m.name.value))];
    }
    keys := keys + {"name"};
    NewField(m, keys, "tool_call_id");
    if m.toolCallId.Some? {
      payload := payload["tool_call_id" := Str(Plain(m.toolCallId.value))];
    }
    assert keys + {"tool_call_id"} == KEYS;
  }

  lemma RoleField(m: Message)
    ensures FieldsOf(m, {"role"}) == map["role" := Str(Plain(RoleName(m.role)))]
  {
  }

  // ---------- Reading a trace back ----------

  /** An optional text attribute; None when the value is not a string. */
  function ReadText(v: Option<Json>): Option<Option<Text>> {
    match v
    case None => Some(None)
    case Some(Null) => Some(None)
    case Some(Str(t)) => Some(Some(t))
    case Some(_) => None
  }

  function ReadString(v: Option<Json>): Option<Option<string>> {
    match v
    case None => Some(None)
    case Some(Null) => Some(None)
    case Some(Str(Plain(s))) => Some(Some(s))
    case Some(_) => None
  }

  /** A string attribute with a default; None when the value is not a string. */
  function ReadStringOr(v: Option<Json>, default: string): Option<string> {
    match v
    case None => Some(default)
    case Some(Str(Plain(s))) => Some(s)
    case Some(_) => None
  }

  /** Tool arguments arrive as a JSON text or as an object; an undecodable text reads as no arguments. */
  function ReadArguments(v: Option<Json>): Option<Dict> {
    match v
    case None => Some(map[])
    case Some(Obj(fields)) => Some(fields)
    case Some(Str(t)) =>
      (match Loads(t)
       case None => Some(map[])
       case Some(Obj(fields)) => Some(fields)
       case Some(_) => None)
    case Some(_) => None
  }

  /** One element of `tool_calls`; None where building the call raises. */
  function DecodeCall(v: Json): Option<ToolCall> {
    if !v.Obj? then None else
    var fn := if "function" in v.fields then v.fields["function"] else Obj(map[]);
    if !fn.Obj? then None else
    var id := ReadStringOr(Get(v.fields, "id"), "");
    var kind := ReadStringOr(Get(v.fields, "type"), "function");
    var name := ReadStringOr(Get(fn.fields, "name"), "");
    var arguments := ReadArguments(Get(fn.fields, "arguments"));
    if id.None? || kind != Some("function") || name.None? || arguments.None? then None
    else Some(ToolCall(id.value, name.value, arguments.value))
  }

  function DecodeCalls(items: seq<Json>): (r: Option<seq<ToolCall>>)
    ensures r.Some? <==> forall i :: 0 <= i < |items| ==> DecodeCall(items[i]).Some?
    ensures r.Some? ==>
              |r.value| == |items| && forall i :: 0 <= i < |items| ==> Some(r.value[i]) == DecodeCall(items[i])
  {
    if items == [] then Some([]) else
    var init := DecodeCalls(items[..|items| - 1]);
    var last := DecodeCall(items[|items| - 1]);
    if init.None? || last.None? then None else Some(init.value + [last.value])
  }

  /** `tool_calls` of a trace dictionary: any falsy value reads as no calls at all. */
  function ReadCalls(v: Option<Json>): Option<Option<seq<ToolCall>>> {
    match v
    case Some(Arr(items)) =>
      if items == [] then Some(None)
      else var calls := DecodeCalls(items); if calls.None? then None else Some(calls)
    case None => Some(None)
    case Some(Null) => Some(None)
    case Some(Bool(false)) => Some(None)
    case Some(Int(0)) => Some(None)
    case Some(Obj(fields)) => if fields == map[] then Some(None) else None
    case Some(Str(t)) => if t == Plain("") then Some(None) else None
    case Some(Float(r)) => if r == 0.0 then Some(None) else None
    case Some(_) => None
  }

  function ReadRole(v: Option<Json>): Option<Role> {
    match v
    case Some(Str(Plain(s))) => Some(RoleOf(s))
    case Some(Arr(_)) => None
    case Some(Obj(_)) => None
    case _ => Some(User)
  }

  /** Rebuild one message from its dictionary; None where the source's reader raises. */
  function FromDict(d: Dict): Option<Message> {
    var role := ReadRole(Get(d, "role"));
    var content := ReadText(Get(d, "content"));
    var reasoning := ReadText(Get(d, "reasoning_content"));
    var thought := ReadText(Get(d, "visible_thought"));
    var calls := ReadCalls(Get(d, "tool_calls"));
    var name := ReadString(Get(d, "name"));
    var callId := ReadString(Get(d, "tool_call_id"));
    if role.None? || content.None? || reasoning.None? || thought.None? || calls.None? || name.None? || callId.None?
    then None
    else Some(Message(role.value, content.value, reasoning.value, thought.value, calls.value, name.value, callId.value))
  }

  /** A message as a trace keeps it: an empty list of tool calls is indistinguishable from none. */
  function Normal(m: Message): Message {
    if m.toolCalls == Some([]) then m.(toolCalls := None) else m
  }

  function NormalAll(ms: seq<Message>): (r: seq<Message>)
    ensures |r| == |ms| && forall i :: 0 <= i < |ms| ==> r[i] == Normal(ms[i])
  {
    seq(|ms|, i requires 0 <= i < |ms| => Normal(ms[i]))
  }

  lemma DecodeEncodedCall(tc: ToolCall)
    ensures DecodeCall(EncodeCall(tc)) == Some(tc)
  {
  }

  lemma ReadEncodedCalls(calls: Option<seq<ToolCall>>)
    ensures ReadCalls(CallsField(calls)) == Some(if calls == Some([]) then None else calls)
  {
    if calls.Some? && calls.value != [] {
      var items := CallsField(calls).value.items;
      forall i | 0 <= i < |items| ensures DecodeCall(items[i]) == Some(calls.value[i]) {
        DecodeEncodedCall(calls.value[i]);
      }
      assert DecodeCalls(items).value == calls.value;
    }
  }

  /** Writing a message to its dictionary and reading it back loses nothing but the empty tool-call list. */
  lemma DictRoundTrip(m: Message)
    ensures FromDict(ToDict(m)) == Some(Normal(m))
  {
    hide FieldsOf, CallsField, ReadCalls;
    var d := ToDict(m);
    ReadEncodedCalls(m.toolCalls);
    assert Get(d, "role") == Field(m, "role");
    assert Get(d, "content") == Field(m, "content");
    assert Get(d, "reasoning_content") == Field(m, "reasoning_content");
    assert Get(d, "visible_thought") == Field(m, "visible_thought");
    assert Get(d, "tool_calls") == Field(m, "tool_calls");
    assert Get(d, "name") == Field(m, "name");
    assert Get(d, "tool_call_id") == Field(m, "tool_call_id");
  }

  /** Messages of a trace; None where some dictionary cannot be read. Runtime messages are kept on request. */
  function FromDicts(ds: seq<Dict>, includeRuntime: bool): Option<seq<Message>> {
    if ds == [] then Some([]) else
    var init := FromDicts(ds[..|ds| - 1], includeRuntime);
    var d := ds[|ds| - 1];
    if init.None? then None
    else if IsRuntimeDict(d) && !includeRuntime then init
    else if FromDict(d).None? then None
    else Some(init.value + [FromDict(d).value])
  }

  predicate IsRuntimeDict(d: Dict) {
    Get(d, "role") == Some(Str(Plain(RoleName(Runtime))))
  }

  /** The dictionaries that are not the runtime's own. */
  function Public(ds: seq<Dict>): seq<Dict> {
    if ds == [] then [] else
    var init, d := Public(ds[..|ds| - 1]), ds[|ds| - 1];
    if Get(d, "role") == Some(Str(Plain("ConversationRuntime"))) then init else init + [d]
  }

  /** Without runtime messages, the reader reads what it would read of the others alone. */
  lemma {:induction false} RuntimeSkipped(ds: seq<Dict>, includeRuntime: bool)
    ensures FromDicts(Public(ds), includeRuntime) == FromDicts(ds, false)
  {
    hide FromDict, FromDicts;
    NothingRead(includeRuntime);
    NothingRead(false);
    if ds != [] {
      var init, d := ds[..|ds| - 1], ds[|ds| - 1];
      RuntimeSkipped(init, includeRuntime);
      assert ds == init + [d];
      OneMoreRead(init, d, false);
      OneMoreRead(Public(init), d, includeRuntime);
    }
  }

  lemma NothingRead(includeRuntime: bool)
    ensures FromDicts([], includeRuntime) == Some([])
  {
  }

  lemma OneMoreRead(ds: seq<Dict>, d: Dict, includeRuntime: bool)
    ensures
      FromDicts(ds + [d], includeRuntime) ==
        if FromDicts(ds, includeRuntime).None? then None
        else if IsRuntimeDict(d) && !includeRuntime then FromDicts(ds, includeRuntime)
        else if FromDict(d).None? then None
        else Some(FromDicts(ds, includeRuntime).value + [FromDict(d).value])
  {
    hide FromDict, IsRuntimeDict;
  }

  /** How the reader fills in for what a dictionary lacks: an unknown or missing role is the user's, and empty values of
      `tool_calls` are no calls. */
  lemma ReaderDefaults(d: Dict)
    requires FromDict(d).Some?
    ensures
      FromDict(d).value.role == match Get(d, "role")
        case Some(Str(Plain("system"))) => System
        case Some(Str(Plain("assistant"))) => Assistant
        case Some(Str(Plain("tool"))) => Tool
        case Some(Str(Plain("ConversationRuntime"))) => Runtime
        case _ => User
    ensures Get(d, "content") in {None, Some(Null)} <==> FromDict(d).value.content.None?
    ensures
      var empty := {Null, Bool(false), Int(0), Float(0.0), Str(Plain("")), Arr([]), Obj(map[])};
      FromDict(d).value.toolCalls.None? <==> Get(d, "tool_calls").None? || Get(d, "tool_calls").value in empty
  {
  }

  /** Whether a text attribute can be read: it is missing, null or a string. */
  predicate Readable(v: Option<Json>) {
    v.None? || v.value.Null? || v.value.Str?
  }

  predicate AllReadable(items: seq<Json>) {
    forall i :: 0 <= i < |items| ==> DecodeCall(items[i]).Some?
  }

  predicate PlainlyReadable(v: Option<Json>) {
    v.None? || v.value.Null? || (v.value.Str? && v.value.text.Plain?)
  }

  /** A dictionary is unreadable exactly if its role cannot be looked up, a text attribute is not a string, or
      `tool_calls` holds something that is not empty and not a list of readable calls. */
  lemma ReaderFailsExactly(d: Dict)
    ensures
      var empty := {Null, Bool(false), Int(0), Float(0.0), Str(Plain("")), Arr([]), Obj(map[])};
      var role, calls := Get(d, "role"), Get(d, "tool_calls");
      FromDict(d).None? <==>
        || (role.Some? && (role.value.Arr? || role.value.Obj?))
        || !Readable(Get(d, "content"))
        || !Readable(Get(d, "reasoning_content")) || !Readable(Get(d, "visible_thought"))
        || !PlainlyReadable(Get(d, "name")) || !PlainlyReadable(Get(d, "tool_call_id"))
        || (calls.Some? && calls.value !in empty && !(calls.value.Arr? && AllReadable(calls.value.items)))
  {
    hide DecodeCall;
  }

  /** Tool arguments that cannot be decoded, or are missing, read as no arguments. */
  lemma ArgumentDefaults(text: string)
    ensures ReadArguments(None) == ReadArguments(Some(Str(Plain(text)))) == Some(map[])
    ensures forall fields ::
              ReadArguments(Some(Obj(fields))) == ReadArguments(Some(Str(Dumps(Obj(fields))))) == Some(fields)
  {
  }

  method ConversationDictsToMessages(dicts: seq<Dict>, includeRuntime: bool) returns (r: Option<seq<Message>>)
    ensures r == FromDicts(dicts, includeRuntime)
  {
    var messages: seq<Message> := [];
    for i := 0 to |dicts|
      invariant FromDicts(dicts[..i], includeRuntime) == Some(messages)
    {
      var d := dicts[i];
      assert dicts[..i + 1][..i] == dicts[..i];
      if IsRuntimeDict(d) && !includeRuntime {
        continue;
      }
      var m := FromDict(d);
      if m.None? {
        UnreadableTrace(dicts, i + 1, includeRuntime);
        return None;
      }
      messages := messages + [m.value];
    }
    assert dicts[..|dicts|] == dicts;
    return Some(messages);
  }

  lemma {:induction false} UnreadableTrace(ds: seq<Dict>, n: nat, includeRuntime: bool)
    requires n <= |ds| && FromDicts(ds[..n], includeRuntime).None?
    ensures FromDicts(ds, includeRuntime).None?
    decreases |ds| - n
  {
    if n == |ds| {
      assert ds[..n] == ds;
    } else {
      assert ds[..n + 1][..n] == ds[..n];
      UnreadableTrace(ds, n + 1, includeRuntime);
    }
  }

  lemma {:induction false} TraceRoundTrip(ms: seq<Message>)
    ensures FromDicts(ToDicts(ms), true) == Some(NormalAll(ms))
  {
    hide ToDict, FromDict, Normal;
    if ms == [] {
      assert NormalAll(ms) == [];
    } else {
      var n := |ms| - 1;
      TraceRoundTrip(ms[..n]);
      assert ToDicts(ms)[..n] == ToDicts(ms[..n]);
      DictRoundTrip(ms[n]);
      assert NormalAll(ms) == NormalAll(ms[..n]) + [Normal(ms[n])];
    }
  }
}
