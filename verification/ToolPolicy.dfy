/** The execution policy of the tool manager as functions on its per-task state. */
module ToolPolicy {
  import opened Messages
  import opened ToolAnswers

  datatype Status = Success | Failed | Rejected

  datatype Reason =
    | ParameterError
    | ExecutionError
    | UnknownTool
    | PerStepLimit
    | TaskBudget
    | CallBudget
    | SameArguments

  datatype RegisteredTool = RegisteredTool(
    maxCalls: Option<int>,
    maxSameArguments: Option<int>,
    budgetMessage: Option<Text>,
    sameArgumentsMessage: Option<Text>)

  /** Policy and registry. Argument repair, the unknown-tool text and the default messages are parameters. */
  datatype Policy = Policy(
    tools: map<string, RegisteredTool>,
    maxPerStep: Option<nat>,
    maxPerTask: Option<nat>,
    defaultMaxCalls: Option<nat>,
    defaultMaxSameArguments: Option<nat>,
    stepMessage: Text,
    taskMessage: Text,
    callMessage: Text,
    sameArgumentsMessage: Text,
    unknownMessage: string -> Text,
    repairArguments: (string, Dict) -> Dict)
  {
    function MaxCalls(name: string): Option<int>
      requires name in tools
    {
      if tools[name].maxCalls.Some? then tools[name].maxCalls
      else if defaultMaxCalls.Some? then Some(defaultMaxCalls.value) else None
    }

    function MaxSameArguments(name: string): Option<int>
      requires name in tools
    {
      if tools[name].maxSameArguments.Some? then tools[name].maxSameArguments
      else if defaultMaxSameArguments.Some? then Some(defaultMaxSameArguments.value) else None
    }

    function Repair(r: Request): Request {
      if r.tool in tools then r.(arguments := repairArguments(r.tool, r.arguments)) else r
    }
  }

  datatype Request = Request(tool: string, arguments: Dict, callId: string)

  datatype ToolResult = ToolResult(status: Status, reason: Option<Reason>, content: Text)

  /** What the world does with one call: schema validation fails, the tool raises, or it returns a result. */
  datatype Behaviour = BadParameters(error: Text) | Threw(error: Text) | Returned(result: ToolResult)

  datatype Tally = Tally(
    requested: nat,
    success: nat,
    failed: nat,
    rejected: nat,
    rejections: map<Reason, nat>,
    failures: map<Reason, nat>)

  const NO_CALLS: Tally := Tally(0, 0, 0, 0, map[], map[])
  const UNKNOWN_KEY := "__unknown__"

  /** Per-task state; `previous` maps a tool to its last round's arguments and their run length. */
  datatype ToolState = ToolState(
    metrics: map<string, Tally>,
    counts: map<string, nat>,
    total: nat,
    unknown: map<string, nat>,
    previous: map<string, (Dict, nat)>)

  function Bump<K>(m: map<K, nat>, k: K): map<K, nat> {
    m[k := 1 + (if k in m then m[k] else 0)]
  }

  function TallyOf(st: ToolState, name: string): Tally {
    if name in st.metrics then st.metrics[name] else NO_CALLS
  }

  function CallsOf(st: ToolState, name: string): nat {
    if name in st.counts then st.counts[name] else 0
  }

  // ---------- Tally updates ----------

  function TallyRejected(t: Tally, reason: Reason): Tally {
    t.(requested := t.requested + 1, rejected := t.rejected + 1, rejections := Bump(t.rejections, reason))
  }

  function TallyFailed(t: Tally, reason: Reason): Tally {
    t.(requested := t.requested + 1, failed := t.failed + 1, failures := Bump(t.failures, reason))
  }

  function TallySucceeded(t: Tally): Tally {
    t.(requested := t.requested + 1, success := t.success + 1)
  }

  function SetTally(st: ToolState, name: string, t: Tally): ToolState {
    st.(metrics := st.metrics[name := t])
  }

  function RecordRejection(st: ToolState, name: string, reason: Reason): ToolState {
    SetTally(st, name, TallyRejected(TallyOf(st, name), reason))
  }

  /** A call that ran: it counts against both budgets, whatever the tool said. */
  function CountCall(st: ToolState, name: string): ToolState {
    st.(counts := Bump(st.counts, name), total := st.total + 1)
  }

  // ---------- One request ----------

  predicate TaskBudgetSpent(p: Policy, st: ToolState) {
    p.maxPerTask.Some? && st.total >= p.maxPerTask.value
  }

  predicate CallBudgetSpent(p: Policy, st: ToolState, name: string)
    requires name in p.tools
  {
    p.MaxCalls(name).Some? && CallsOf(st, name) >= p.MaxCalls(name).value
  }

  predicate RepeatsTooOften(p: Policy, st: ToolState, name: string, arguments: Dict)
    requires name in p.tools
  {
    && p.MaxSameArguments(name).Some?
    && name in st.previous
    && arguments == st.previous[name].0
    && st.previous[name].1 >= p.MaxSameArguments(name).value
  }

  /** `text or default`. */
  function OrDefault(text: Option<Text>, default: Text): Text {
    if text.None? || text.value == Plain("") then default else text.value
  }

  /** The policy's refusal of a call to a registered tool, if any. */
  function Refusal(p: Policy, st: ToolState, name: string, arguments: Dict): Option<(Reason, Text)>
    requires name in p.tools
  {
    if TaskBudgetSpent(p, st) then Some((TaskBudget, p.taskMessage))
    else if CallBudgetSpent(p, st, name) then Some((CallBudget, OrDefault(p.tools[name].budgetMessage, p.callMessage)))
    else if RepeatsTooOften(p, st, name, arguments) then
      Some((SameArguments, OrDefault(p.tools[name].sameArgumentsMessage, p.sameArgumentsMessage)))
    else None
  }

  function Refused(reason: Reason, content: Text): ToolResult {
    ToolResult(Rejected, Some(reason), content)
  }

  /** A call that passed the policy: the world decides how it ends. */
  function Ran(st: ToolState, name: string, b: Behaviour): (ToolState, ToolResult) {
    var t := TallyOf(st, name);
    match b
    case BadParameters(e) =>
      (SetTally(st, name, TallyFailed(t, ParameterError)), ToolResult(Failed, Some(ParameterError), e))
    case Threw(e) =>
      (SetTally(st, name, TallyFailed(t, ExecutionError)), ToolResult(Failed, Some(ExecutionError), e))
    case Returned(result) =>
      var t' := if result.status == Failed
                then TallyFailed(t, if result.reason.Some? then result.reason.value else ExecutionError)
                else TallySucceeded(t);
      (CountCall(SetTally(st, name, t'), name), result)
  }

  function Execute(p: Policy, st: ToolState, request: Request, b: Behaviour): (ToolState, ToolResult) {
    var r := p.Repair(request);
    var name := r.tool;
    if name !in p.tools then
      (RecordRejection(st, UNKNOWN_KEY, UnknownTool).(unknown := Bump(st.unknown, name)),
       Refused(UnknownTool, p.unknownMessage(name)))
    else
      var refusal := Refusal(p, st, name, r.arguments);
      if refusal.Some? then
        (RecordRejection(st, name, refusal.value.0), Refused(refusal.value.0, refusal.value.1))
      else Ran(st, name, b)
  }

  // ---------- One round ----------

  datatype ToolOutcome = ToolOutcome(request: Request, result: ToolResult, message: Message)

  /** A round in progress: outcomes so far, the last successful arguments per tool, and the calls spent. */
  datatype Round = Round(st: ToolState, outcomes: seq<ToolOutcome>, current: map<string, Dict>, steps: nat)

  function StepLimitReached(p: Policy, rd: Round): bool {
    p.maxPerStep.Some? && rd.steps >= p.maxPerStep.value
  }

  function OneRequest(p: Policy, rd: Round, raw: Request, b: Behaviour): Round {
    var request := p.Repair(raw);
    var limited := StepLimitReached(p, rd);
    var (st, result) :=
      if limited then
        (RecordRejection(rd.st, if request.tool in p.tools then request.tool else UNKNOWN_KEY, PerStepLimit),
         Refused(PerStepLimit, p.stepMessage))
      else Execute(p, rd.st, request, b);
    Round(
      st,
      rd.outcomes + [ToolOutcome(request, result, ToolMessage(result.content, request.callId, request.tool))],
      if !limited && result.status == Success then rd.current[request.tool := request.arguments] else rd.current,
      if result.status != Rejected then rd.steps + 1 else rd.steps)
  }

  function RunRequests(p: Policy, st: ToolState, requests: seq<Request>, world: nat -> Behaviour): (rd: Round)
    ensures |rd.outcomes| == |requests|
  {
    if requests == [] then Round(st, [], map[], 0)
    else
      var n := |requests| - 1;
      OneRequest(p, RunRequests(p, st, requests[..n], world), requests[n], world(n))
  }

  /** The run lengths after a round: only tools that succeeded in it keep one. */
  function NextPrevious(previous: map<string, (Dict, nat)>, current: map<string, Dict>): map<string, (Dict, nat)> {
    map name | name in current ::
      (current[name],
       if name in previous && previous[name].0 == current[name] then previous[name].1 + 1 else 1)
  }

  function ExecuteRound(p: Policy, st: ToolState, requests: seq<Request>, world: nat -> Behaviour)
    : (ToolState, seq<ToolOutcome>)
  {
    var rd := RunRequests(p, st, requests, world);
    (rd.st.(previous := NextPrevious(st.previous, rd.current)), rd.outcomes)
  }

  ghost predicate Exhausted(p: Policy, st: ToolState) {
    TaskBudgetSpent(p, st) || (p.tools != map[] && forall name :: name in p.tools ==> CallBudgetSpent(p, st, name))
  }

  /** The state at the start of a task. */
  function TaskStart(st: ToolState): ToolState {
    ToolState(map name | name in st.metrics :: NO_CALLS, map name | name in st.counts :: 0, 0, map[], map[])
  }

  function Registered(p: Policy): ToolState {
    ToolState(map name | name in p.tools :: NO_CALLS, map name | name in p.tools :: 0, 0, map[], map[])
  }

  /** A saved state as a manager with policy `p` resumes it: unknown tools start from zero. */
  function Restored(p: Policy, saved: ToolState): ToolState {
    saved.(
      counts := map name | name in p.tools.Keys + saved.counts.Keys :: CallsOf(saved, name),
      metrics := map name | name in p.tools.Keys + saved.metrics.Keys :: TallyOf(saved, name))
  }

  function MessagesOf(outcomes: seq<ToolOutcome>): (ms: seq<Message>)
    ensures |ms| == |outcomes| && forall i :: 0 <= i < |ms| ==> ms[i] == outcomes[i].message
  {
    seq(|outcomes|, i requires 0 <= i < |outcomes| => outcomes[i].message)
  }

  function RejectedIds(outcomes: seq<ToolOutcome>): set<string> {
    set i | 0 <= i < |outcomes| && outcomes[i].result.status == Rejected :: outcomes[i].request.callId
  }

  // ---------- Accounting ----------

  ghost function Sum<K>(m: map<K, nat>): nat {
    if m == map[] then 0 else
    var k :| k in m;
    m[k] + Sum(m - {k})
  }

  lemma {:induction false} SumAt<K>(m: map<K, nat>, k: K)
    requires k in m
    ensures Sum(m) == m[k] + Sum(m - {k})
    decreases m
  {
    var j :| j in m && Sum(m) == m[j] + Sum(m - {j});
    if j != k {
      SumAt(m - {j}, k);
      SumAt(m - {k}, j);
      assert m - {j} - {k} == m - {k} - {j};
    }
  }

  lemma {:induction false} SumBump<K>(m: map<K, nat>, k: K)
    ensures Sum(Bump(m, k)) == Sum(m) + 1
  {
    SumAt(Bump(m, k), k);
    assert Bump(m, k) - {k} == m - {k};
    if k in m {
      SumAt(m, k);
    } else {
      assert m - {k} == m;
    }
  }

  lemma {:induction false} SumZeros<K>(m: map<K, nat>)
    requires forall k :: k in m ==> m[k] == 0
    ensures Sum(m) == 0
    decreases m
  {
    if m != map[] {
      var k :| k in m && Sum(m) == m[k] + Sum(m - {k});
      SumZeros(m - {k});
    }
  }

  ghost predicate Balanced(t: Tally) {
    && t.requested == t.success + t.failed + t.rejected
    && Sum(t.failures) == t.failed
    && Sum(t.rejections) == t.rejected
  }

  /** Every tally balances, the per-tool counts sum to the per-task total, and no budget is overdrawn. */
  ghost predicate Accounted(p: Policy, st: ToolState) {
    && (forall name :: name in st.metrics ==> Balanced(st.metrics[name]))
    && Sum(st.counts) == st.total
    && (p.maxPerTask.Some? ==> st.total <= p.maxPerTask.value)
    && (forall name :: name in p.tools && p.MaxCalls(name).Some? && CallsOf(st, name) > 0 ==>
          CallsOf(st, name) <= p.MaxCalls(name).value)
  }

  lemma RejectedBalances(t: Tally, reason: Reason)
    requires Balanced(t)
    ensures Balanced(TallyRejected(t, reason)) && Balanced(TallyFailed(t, reason)) && Balanced(TallySucceeded(t))
  {
    SumBump(t.rejections, reason);
    SumBump(t.failures, reason);
  }

  lemma EntryBalanced(p: Policy, st: ToolState, name: string)
    requires Accounted(p, st)
    ensures Balanced(TallyOf(st, name))
  {
  }

  lemma SetTallyKeeps(p: Policy, st: ToolState, name: string, t: Tally)
    requires Accounted(p, st) && Balanced(t)
    ensures Accounted(p, SetTally(st, name, t))
  {
  }

  lemma RejectionAccounted(p: Policy, st: ToolState, name: string, reason: Reason)
    requires Accounted(p, st)
    ensures Accounted(p, RecordRejection(st, name, reason))
  {
    EntryBalanced(p, st, name);
    RejectedBalances(TallyOf(st, name), reason);
    SetTallyKeeps(p, st, name, TallyRejected(TallyOf(st, name), reason));
  }

  lemma CallAccounted(p: Policy, st: ToolState, name: string)
    requires Accounted(p, st) && name in p.tools && !TaskBudgetSpent(p, st) && !CallBudgetSpent(p, st, name)
    ensures Accounted(p, CountCall(st, name))
  {
    SumBump(st.counts, name);
  }

  lemma ExecuteAccounted(p: Policy, st: ToolState, request: Request, b: Behaviour)
    requires Accounted(p, st)
    ensures Accounted(p, Execute(p, st, request, b).0)
  {
    hide Accounted, Balanced, RecordRejection, SetTally, CountCall, TallyFailed, TallySucceeded, Bump;
    var r := p.Repair(request);
    var name := r.tool;
    if name !in p.tools {
      RejectionAccounted(p, st, UNKNOWN_KEY, UnknownTool);
      UnknownAccounted(p, RecordRejection(st, UNKNOWN_KEY, UnknownTool), Bump(st.unknown, name));
    } else {
      var refusal := Refusal(p, st, name, r.arguments);
      if refusal.Some? {
        RejectionAccounted(p, st, name, refusal.value.0);
      } else {
        var t := TallyOf(st, name);
        EntryBalanced(p, st, name);
        match b {
          case BadParameters(e) =>
            RejectedBalances(t, ParameterError);
            SetTallyKeeps(p, st, name, TallyFailed(t, ParameterError));
          case Threw(e) =>
            RejectedBalances(t, ExecutionError);
            SetTallyKeeps(p, st, name, TallyFailed(t, ExecutionError));
          case Returned(result) =>
            var reason := if result.reason.Some? then result.reason.value else ExecutionError;
            var t' := if result.status == Failed then TallyFailed(t, reason) else TallySucceeded(t);
            RejectedBalances(t, reason);
            SetTallyKeeps(p, st, name, t');
            ReturnedAccounted(p, st, name, t');
        }
      }
    }
  }

  lemma UnknownAccounted(p: Policy, st: ToolState, unknown: map<string, nat>)
    requires Accounted(p, st)
    ensures Accounted(p, st.(unknown := unknown))
  {
  }

  lemma ReturnedAccounted(p: Policy, st: ToolState, name: string, t: Tally)
    requires Accounted(p, SetTally(st, name, t))
    requires name in p.tools && !TaskBudgetSpent(p, st) && !CallBudgetSpent(p, st, name)
    ensures Accounted(p, CountCall(SetTally(st, name, t), name))
  {
    CallAccounted(p, SetTally(st, name, t), name);
  }

  lemma OneRequestAccounted(p: Policy, rd: Round, raw: Request, b: Behaviour)
    requires Accounted(p, rd.st)
    ensures Accounted(p, OneRequest(p, rd, raw, b).st)
  {
    hide Accounted, Execute, RecordRejection;
    var request := p.Repair(raw);
    RejectionAccounted(p, rd.st, if request.tool in p.tools then request.tool else UNKNOWN_KEY, PerStepLimit);
    ExecuteAccounted(p, rd.st, request, b);
  }

  lemma {:induction false} RequestsAccounted(p: Policy, st: ToolState, requests: seq<Request>, world: nat -> Behaviour)
    requires Accounted(p, st)
    ensures Accounted(p, RunRequests(p, st, requests, world).st)
  {
    hide Accounted, OneRequest;
    if requests != [] {
      var n := |requests| - 1;
      RequestsAccounted(p, st, requests[..n], world);
      OneRequestAccounted(p, RunRequests(p, st, requests[..n], world), requests[n], world(n));
    }
  }

  /** A whole history of rounds. */
  datatype RoundInput = RoundInput(requests: seq<Request>, world: nat -> Behaviour)

  function RunRounds(p: Policy, st: ToolState, rounds: seq<RoundInput>): ToolState {
    if rounds == [] then st else
    var last := rounds[|rounds| - 1];
    ExecuteRound(p, RunRounds(p, st, rounds[..|rounds| - 1]), last.requests, last.world).0
  }

  lemma PreviousAccounted(p: Policy, st: ToolState, previous: map<string, (Dict, nat)>)
    requires Accounted(p, st)
    ensures Accounted(p, st.(previous := previous))
  {
  }

  lemma RoundAccounted(p: Policy, st: ToolState, requests: seq<Request>, world: nat -> Behaviour)
    requires Accounted(p, st)
    ensures Accounted(p, ExecuteRound(p, st, requests, world).0)
  {
    hide Accounted, RunRequests, NextPrevious;
    RequestsAccounted(p, st, requests, world);
    var rd := RunRequests(p, st, requests, world);
    PreviousAccounted(p, rd.st, NextPrevious(st.previous, rd.current));
  }

  /** Everything that callers do with a manager between two tasks and within one. */
  datatype ManagerCall =
    | ExecuteCalls(input: RoundInput)
    | Reject(name: string, reason: Reason)
    | Reset
    | Restore(saved: ToolState)

  function AfterCall(p: Policy, st: ToolState, c: ManagerCall): ToolState {
    match c
    case ExecuteCalls(input) => ExecuteRound(p, st, input.requests, input.world).0
    case Reject(name, reason) => RecordRejection(st, name, reason)
    case Reset => TaskStart(st)
    case Restore(saved) => Restored(p, saved)
  }

  function AfterCalls(p: Policy, st: ToolState, calls: seq<ManagerCall>): ToolState {
    if calls == [] then st else AfterCall(p, AfterCalls(p, st, calls[..|calls| - 1]), calls[|calls| - 1])
  }

  /** Over any life of a manager, from any accounted state and with only accounted states restored, the books stay
      balanced and no budget is overdrawn. */
  lemma {:induction false} HistoryAccounted(p: Policy, st: ToolState, calls: seq<ManagerCall>)
    requires Accounted(p, st)
    requires forall c :: c in calls && c.Restore? ==> Accounted(p, c.saved)
    ensures Accounted(p, AfterCalls(p, st, calls))
  {
    hide Accounted, ExecuteRound, RecordRejection, TaskStart, Restored;
    if calls != [] {
      var n := |calls| - 1;
      HistoryAccounted(p, st, calls[..n]);
      var before := AfterCalls(p, st, calls[..n]);
      match calls[n] {
        case ExecuteCalls(input) => RoundAccounted(p, before, input.requests, input.world);
        case Reject(name, reason) => RejectionAccounted(p, before, name, reason);
        case Reset => StartAccounted(p, before);
        case Restore(saved) => RestoredAccounted(p, saved);
      }
    }
  }

  lemma {:induction false} RoundsAccounted(p: Policy, st: ToolState, rounds: seq<RoundInput>)
    requires Accounted(p, st)
    ensures Accounted(p, RunRounds(p, st, rounds))
  {
    hide Accounted, ExecuteRound;
    if rounds != [] {
      var n := |rounds| - 1;
      RoundsAccounted(p, st, rounds[..n]);
      RoundAccounted(p, RunRounds(p, st, rounds[..n]), rounds[n].requests, rounds[n].world);
    }
  }

  lemma {:induction false} SumPadded<K>(m: map<K, nat>, padded: map<K, nat>)
    requires m.Keys <= padded.Keys
    requires forall k :: k in padded ==> padded[k] == if k in m then m[k] else 0
    ensures Sum(padded) == Sum(m)
    decreases padded
  {
    hide Sum;
    if padded == map[] {
      assert m == map[];
    } else {
      var k :| k in padded;
      SumAt(padded, k);
      if k in m {
        SumAt(m, k);
        SumPadded(m - {k}, padded - {k});
      } else {
        SumPadded(m, padded - {k});
      }
    }
  }

  lemma RestoredAccounted(p: Policy, saved: ToolState)
    requires Accounted(p, saved)
    ensures Accounted(p, Restored(p, saved))
  {
    hide Sum, Balanced;
    EmptyBalanced();
    SumPadded(saved.counts, Restored(p, saved).counts);
  }

  lemma EmptyBalanced()
    ensures Balanced(NO_CALLS)
  {
  }

  lemma ZeroAccounted(p: Policy, st: ToolState)
    requires forall name :: name in st.metrics ==> st.metrics[name] == NO_CALLS
    requires forall name :: name in st.counts ==> st.counts[name] == 0
    requires st.total == 0
    ensures Accounted(p, st)
  {
    hide Sum, Balanced;
    EmptyBalanced();
    SumZeros(st.counts);
  }

  /** The counters as a task finds them. */
  ghost predicate NewTask(st: ToolState) {
    && (forall name :: name in st.metrics ==> st.metrics[name] == NO_CALLS)
    && (forall name :: name in st.counts ==> st.counts[name] == 0)
    && st.total == 0 && st.unknown == map[] && st.previous == map[]
  }

  lemma StartAccounted(p: Policy, st: ToolState)
    ensures NewTask(TaskStart(st)) && NewTask(Registered(p))
    ensures Accounted(p, TaskStart(st)) && Accounted(p, Registered(p))
  {
    hide Accounted;
    ZeroAccounted(p, TaskStart(st));
    ZeroAccounted(p, Registered(p));
  }

  // ---------- Batches fit ----------

  /** One outcome per request, in order, with its call id and tool, answered by a tool message. */
  lemma {:induction false} OneOutcomePerRequest(p: Policy, st: ToolState, requests: seq<Request>,
                                                world: nat -> Behaviour)
    ensures
      var outcomes := RunRequests(p, st, requests, world).outcomes;
      forall i :: 0 <= i < |requests| ==>
        && outcomes[i].request == p.Repair(requests[i])
        && outcomes[i].message == ToolMessage(outcomes[i].result.content, requests[i].callId, requests[i].tool)
  {
    hide Execute, RecordRejection;
    if requests != [] {
      OneOutcomePerRequest(p, st, requests[..|requests| - 1], world);
    }
  }

  /** Requests as every caller in the repository prepares them: repaired once before the round repairs them again. */
  function Prepared(p: Policy, requests: seq<Request>): (rs: seq<Request>)
    ensures |rs| == |requests| && forall i :: 0 <= i < |rs| ==> rs[i] == p.Repair(requests[i])
  {
    seq(|requests|, i requires 0 <= i < |requests| => p.Repair(requests[i]))
  }

  function RequestsFor(p: Policy, calls: seq<ToolCall>): (rs: seq<Request>)
    ensures |rs| == |calls|
    ensures forall i :: 0 <= i < |rs| ==> rs[i] == p.Repair(Request(calls[i].name, calls[i].arguments, calls[i].id))
  {
    Prepared(p, seq(|calls|, i requires 0 <= i < |calls| => Request(calls[i].name, calls[i].arguments, calls[i].id)))
  }

  /** A round run for pending calls passes the runtime's id check exactly when no call id is empty. */
  lemma BatchFits(p: Policy, st: ToolState, calls: seq<ToolCall>, world: nat -> Behaviour)
    ensures
      var ms := MessagesOf(ExecuteRound(p, st, RequestsFor(p, calls), world).1);
      && (Answers(ms, calls) <==> forall i :: 0 <= i < |calls| ==> calls[i].id != "")
      && forall i :: 0 <= i < |ms| ==> ms[i].role == Tool
  {
    hide RunRequests, NextPrevious;
    var requests := RequestsFor(p, calls);
    OneOutcomePerRequest(p, st, requests, world);
    var ms := MessagesOf(ExecuteRound(p, st, requests, world).1);
    assert forall i :: 0 <= i < |ms| ==> ms[i].toolCallId == Some(calls[i].id);
    assert forall id :: id in AnsweredIds(ms) <==> id in CallIds(calls) && id != "";
    assert forall i :: 0 <= i < |calls| ==> calls[i].id in CallIds(calls);
  }

  /** How many outcomes were not rejected. */
  function Spent(outcomes: seq<ToolOutcome>): nat {
    if outcomes == [] then 0
    else Spent(outcomes[..|outcomes| - 1]) + (if outcomes[|outcomes| - 1].result.status != Rejected then 1 else 0)
  }

  /** A round never has more non-rejected outcomes than one step allows. */
  lemma {:induction false} StepLimitHolds(p: Policy, st: ToolState, requests: seq<Request>, world: nat -> Behaviour)
    ensures
      var rd := RunRequests(p, st, requests, world);
      rd.steps == Spent(rd.outcomes) && (p.maxPerStep.Some? ==> rd.steps <= p.maxPerStep.value)
  {
    hide Execute, RecordRejection;
    if requests != [] {
      var n := |requests| - 1;
      StepLimitHolds(p, st, requests[..n], world);
      var before, after := RunRequests(p, st, requests[..n], world), RunRequests(p, st, requests, world);
      assert after.outcomes[..n] == before.outcomes;
    }
  }

  // ---------- Exhaustion ----------

  predicate SameBudgets(a: ToolState, b: ToolState) {
    a.counts == b.counts && a.total == b.total
  }

  lemma ExhaustedCall(p: Policy, st: ToolState, request: Request, b: Behaviour)
    requires Exhausted(p, st)
    ensures
      var (after, result) := Execute(p, st, request, b);
      SameBudgets(after, st) && result.status == Rejected
  {
    var r := p.Repair(request);
    if r.tool in p.tools && !TaskBudgetSpent(p, st) {
      assert CallBudgetSpent(p, st, r.tool);
    }
  }

  lemma ExhaustedRequest(p: Policy, rd: Round, raw: Request, b: Behaviour)
    requires Exhausted(p, rd.st)
    ensures
      var after := OneRequest(p, rd, raw, b);
      && SameBudgets(after.st, rd.st) && after.current == rd.current
      && after.outcomes[|after.outcomes| - 1].result.status == Rejected
  {
    hide Execute, Exhausted;
    ExhaustedCall(p, rd.st, p.Repair(raw), b);
  }

  /** Exhaustion is absorbing: every later round is rejected as a whole and spends nothing, so the manager stays
      exhausted. */
  lemma ExhaustionAbsorbs(p: Policy, st: ToolState, requests: seq<Request>, world: nat -> Behaviour)
    requires Exhausted(p, st)
    ensures
      var (after, outcomes) := ExecuteRound(p, st, requests, world);
      && SameBudgets(after, st) && Exhausted(p, after)
      && forall i :: 0 <= i < |outcomes| ==> outcomes[i].result.status == Rejected
  {
    ExhaustedRun(p, st, requests, world);
  }

  lemma {:induction false} ExhaustedRun(p: Policy, st: ToolState, requests: seq<Request>, world: nat -> Behaviour)
    requires Exhausted(p, st)
    ensures
      var rd := RunRequests(p, st, requests, world);
      && SameBudgets(rd.st, st) && Exhausted(p, rd.st)
      && forall i :: 0 <= i < |requests| ==> rd.outcomes[i].result.status == Rejected
  {
    hide Execute, RecordRejection;
    if requests != [] {
      var n := |requests| - 1;
      ExhaustedRun(p, st, requests[..n], world);
      ExhaustedRequest(p, RunRequests(p, st, requests[..n], world), requests[n], world(n));
    }
  }

  /** Whatever is asked of this tool, it runs, or is refused for nothing but repeated arguments. */
  ghost predicate Callable(p: Policy, st: ToolState, name: string)
    requires name in p.tools
  {
    forall raw: Request, b :: raw.tool == name ==>
      Execute(p, st, raw, b) ==
        if RepeatsTooOften(p, st, name, p.Repair(raw).arguments)
        then (RecordRejection(st, name, SameArguments),
              Refused(SameArguments, OrDefault(p.tools[name].sameArgumentsMessage, p.sameArgumentsMessage)))
        else Ran(st, name, b)
  }

  lemma CallableWithinBudget(p: Policy, st: ToolState, name: string)
    requires name in p.tools
    ensures Callable(p, st, name) <==> !TaskBudgetSpent(p, st) && !CallBudgetSpent(p, st, name)
  {
    hide RecordRejection;
    if TaskBudgetSpent(p, st) || CallBudgetSpent(p, st, name) {
      var raw, b := Request(name, map[], ""), Threw(Plain(""));
      assert Execute(p, st, raw, b).1.reason in {Some(TaskBudget), Some(CallBudget)};
      assert Ran(st, name, b).1.status == Failed;
    }
  }

  /** Exhaustion is exact: while it fails and tools are registered, some tool still runs whatever does not repeat
      its arguments too often; once it holds, none does. */
  lemma NotExhausted(p: Policy, st: ToolState)
    requires p.tools != map[]
    ensures !Exhausted(p, st) <==> exists name :: name in p.tools && Callable(p, st, name)
  {
    hide Callable, TaskBudgetSpent, CallBudgetSpent;
    forall name | name in p.tools
      ensures Callable(p, st, name) <==> !TaskBudgetSpent(p, st) && !CallBudgetSpent(p, st, name)
    {
      CallableWithinBudget(p, st, name);
    }
  }

  // ---------- Runs of the same arguments ----------

  /** The successful arguments of each round of a history. */
  function Successes(p: Policy, st: ToolState, rounds: seq<RoundInput>): seq<map<string, Dict>> {
    if rounds == [] then [] else
    var n := |rounds| - 1;
    Successes(p, st, rounds[..n])
      + [RunRequests(p, RunRounds(p, st, rounds[..n]), rounds[n].requests, rounds[n].world).current]
  }

  /** How many rounds at the end of `h` all succeeded last with arguments `arguments` for tool `name`. */
  function RunLength(h: seq<map<string, Dict>>, name: string, arguments: Dict): nat {
    if h == [] || name !in h[|h| - 1] || h[|h| - 1][name] != arguments then 0
    else 1 + RunLength(h[..|h| - 1], name, arguments)
  }

  /** The stored entries are exactly the run lengths of the last round's successful arguments. */
  ghost predicate RunsAre(previous: map<string, (Dict, nat)>, h: seq<map<string, Dict>>) {
    if h == [] then previous == map[]
    else
      && previous.Keys == h[|h| - 1].Keys
      && forall name :: name in previous ==>
           && previous[name].0 == h[|h| - 1][name]
           && previous[name].1 == RunLength(h, name, previous[name].0)
  }

  lemma NextRuns(previous: map<string, (Dict, nat)>, h: seq<map<string, Dict>>, current: map<string, Dict>)
    requires RunsAre(previous, h)
    ensures RunsAre(NextPrevious(previous, current), h + [current])
  {
  }

  lemma {:induction false} KeepsPrevious(p: Policy, st: ToolState, requests: seq<Request>, world: nat -> Behaviour)
    ensures RunRequests(p, st, requests, world).st.previous == st.previous
  {
    if requests != [] {
      KeepsPrevious(p, st, requests[..|requests| - 1], world);
    }
  }

  /** Over any history of a task, the stored count of a tool is the length of the current run of rounds that
      ended in the same successful arguments. */
  lemma {:induction false} StoredCountIsRunLength(p: Policy, st: ToolState, rounds: seq<RoundInput>)
    requires st.previous == map[]
    ensures RunsAre(RunRounds(p, st, rounds).previous, Successes(p, st, rounds))
  {
    hide RunRequests, NextPrevious, RunsAre;
    if rounds == [] {
      NoRuns(st.previous);
    } else {
      var n := |rounds| - 1;
      StoredCountIsRunLength(p, st, rounds[..n]);
      var before := RunRounds(p, st, rounds[..n]);
      NextRuns(before.previous, Successes(p, st, rounds[..n]),
               RunRequests(p, before, rounds[n].requests, rounds[n].world).current);
    }
  }

  lemma NoRuns(previous: map<string, (Dict, nat)>)
    requires previous == map[]
    ensures RunsAre(previous, [])
  {
  }

  // Does a run of the same arguments stay within its limit? A round stores the arguments as it repaired them, and
  // compares them with the next round's after one repair more.

  /** One repair more changes nothing in what the round makes of this request. */
  predicate Settled(p: Policy, name: string, raw: Request) {
    raw.tool == name ==>
      p.repairArguments(name, p.repairArguments(name, raw.arguments)) == p.repairArguments(name, raw.arguments)
  }

  predicate AllSettled(p: Policy, name: string, requests: seq<Request>) {
    forall i :: 0 <= i < |requests| ==> Settled(p, name, requests[i])
  }

  /** A history as its callers ask for it, or prepared by them. */
  function History(p: Policy, rounds: seq<RoundInput>, prepared: bool): (h: seq<RoundInput>)
    ensures |h| == |rounds|
  {
    if !prepared then rounds else
    seq(|rounds|, i requires 0 <= i < |rounds| => RoundInput(Prepared(p, rounds[i].requests), rounds[i].world))
  }

  lemma HistoryInit(p: Policy, rounds: seq<RoundInput>, prepared: bool)
    requires rounds != []
    ensures History(p, rounds, prepared)[..|rounds| - 1] == History(p, rounds[..|rounds| - 1], prepared)
  {
  }

  /** The arguments that a round of such a history can be asked to repair. */
  function Asked(p: Policy, name: string, arguments: Dict, prepared: bool): Dict {
    if prepared then p.repairArguments(name, arguments) else arguments
  }

  /** Repair settles: on all arguments at once, or on repaired ones if callers repair first. */
  ghost predicate Settles(p: Policy, name: string, prepared: bool) {
    forall arguments ::
      p.repairArguments(name, p.repairArguments(name, Asked(p, name, arguments, prepared)))
        == p.repairArguments(name, Asked(p, name, arguments, prepared))
  }

  lemma SettlesAll(p: Policy, name: string, rounds: seq<RoundInput>, prepared: bool, k: nat)
    requires name in p.tools && Settles(p, name, prepared) && k < |rounds|
    ensures AllSettled(p, name, History(p, rounds, prepared)[k].requests)
  {
    var requests := History(p, rounds, prepared)[k].requests;
    forall i | 0 <= i < |requests| ensures Settled(p, name, requests[i]) {
      var raw := rounds[k].requests[i];
      assert requests[i] == if prepared then p.Repair(raw) else raw;
      if raw.tool == name {
        assert requests[i].arguments == Asked(p, name, raw.arguments, prepared);
      }
    }
  }

  predicate Limited(p: Policy, name: string) {
    name in p.tools && p.MaxSameArguments(name).Some? && p.MaxSameArguments(name).value >= 1
  }

  predicate WithinLimit(p: Policy, st: ToolState, name: string)
    requires Limited(p, name)
  {
    name in st.previous ==> st.previous[name].1 <= p.MaxSameArguments(name).value
  }

  /** A success in a round was not one repetition too many. */
  predicate FreshSuccess(p: Policy, st: ToolState, current: map<string, Dict>, name: string)
    requires name in p.tools
  {
    name in current ==> !RepeatsTooOften(p, st, name, current[name])
  }

  lemma SuccessIsFresh(p: Policy, rd: Round, raw: Request, b: Behaviour, st: ToolState, name: string)
    requires name in p.tools && Settled(p, name, raw) && rd.st.previous == st.previous
    requires FreshSuccess(p, st, rd.current, name)
    ensures FreshSuccess(p, st, OneRequest(p, rd, raw, b).current, name)
  {
  }

  lemma {:induction false} SuccessesAreFresh(p: Policy, st: ToolState, requests: seq<Request>, world: nat -> Behaviour,
                                             name: string)
    requires name in p.tools && AllSettled(p, name, requests)
    ensures FreshSuccess(p, st, RunRequests(p, st, requests, world).current, name)
  {
    hide OneRequest, Settled, RepeatsTooOften;
    if requests != [] {
      var n := |requests| - 1;
      SuccessesAreFresh(p, st, requests[..n], world, name);
      KeepsPrevious(p, st, requests[..n], world);
      SuccessIsFresh(p, RunRequests(p, st, requests[..n], world), requests[n], world(n), st, name);
    }
  }

  /** Where repair settles, no run of identical successful arguments outgrows its limit. */
  lemma {:induction false} SettledRepairKeepsLimit(p: Policy, st: ToolState, rounds: seq<RoundInput>, name: string,
                                                   prepared: bool)
    requires Limited(p, name) && Settles(p, name, prepared) && WithinLimit(p, st, name)
    ensures WithinLimit(p, RunRounds(p, st, History(p, rounds, prepared)), name)
  {
    hide RunRequests, Settles, AllSettled;
    if rounds != [] {
      var n := |rounds| - 1;
      var h := History(p, rounds, prepared);
      SettledRepairKeepsLimit(p, st, rounds[..n], name, prepared);
      HistoryInit(p, rounds, prepared);
      var before := RunRounds(p, st, h[..n]);
      SettlesAll(p, name, rounds, prepared, n);
      SuccessesAreFresh(p, before, h[n].requests, h[n].world, name);
    }
  }

  /** Another budget stops the tool before its run can outgrow the limit. */
  predicate CutOff(p: Policy, name: string)
    requires Limited(p, name)
  {
    var limit := p.MaxSameArguments(name).value;
    || p.maxPerStep == Some(0)
    || (p.maxPerTask.Some? && p.maxPerTask.value <= limit)
    || (p.MaxCalls(name).Some? && p.MaxCalls(name).value <= limit)
  }

  /** Calls of a tool since `st`: each success of a round was one, and each counts towards the per-task total. */
  predicate CallsGrew(st: ToolState, rd: Round, name: string) {
    && CallsOf(rd.st, name) >= CallsOf(st, name) + (if name in rd.current then 1 else 0)
    && rd.st.total - st.total >= CallsOf(rd.st, name) - CallsOf(st, name)
  }

  lemma {:induction false} SuccessesAreCalls(p: Policy, st: ToolState, requests: seq<Request>, world: nat -> Behaviour,
                                             name: string)
    ensures
      var rd := RunRequests(p, st, requests, world);
      CallsGrew(st, rd, name) && (p.maxPerStep == Some(0) ==> rd.current == map[])
  {
    hide RecordRejection, Refusal;
    if requests != [] {
      var n := |requests| - 1;
      SuccessesAreCalls(p, st, requests[..n], world, name);
      CallsGrow(p, st, RunRequests(p, st, requests[..n], world), requests[n], world(n), name);
    }
  }

  lemma CallGrows(p: Policy, st: ToolState, request: Request, b: Behaviour, name: string)
    ensures
      var (after, result) := Execute(p, st, request, b);
      && CallsOf(after, name) >= CallsOf(st, name) + (if request.tool == name && result.status == Success then 1 else 0)
      && after.total - st.total >= CallsOf(after, name) - CallsOf(st, name)
  {
    hide Refusal, TallyRejected, TallyFailed, TallySucceeded;
  }

  lemma CallsGrow(p: Policy, st: ToolState, rd: Round, raw: Request, b: Behaviour, name: string)
    requires CallsGrew(st, rd, name)
    ensures CallsGrew(st, OneRequest(p, rd, raw, b), name)
    ensures p.maxPerStep == Some(0) ==> OneRequest(p, rd, raw, b).current == rd.current
  {
    hide Execute;
    CallGrows(p, rd.st, p.Repair(raw), b, name);
  }

  /** A stored run is never longer than the tool's calls, nor these than the per-task total. */
  predicate RunsAreCalls(p: Policy, st: ToolState, name: string) {
    && CallsOf(st, name) <= st.total
    && (name in st.previous ==> p.maxPerStep != Some(0) && 0 < st.previous[name].1 <= CallsOf(st, name))
  }

  lemma {:induction false} HistoryRunsAreCalls(p: Policy, start: ToolState, rounds: seq<RoundInput>, name: string)
    requires NewTask(start)
    ensures RunsAreCalls(p, RunRounds(p, start, rounds), name)
  {
    hide RunRequests;
    if rounds != [] {
      var n := |rounds| - 1;
      HistoryRunsAreCalls(p, start, rounds[..n], name);
      SuccessesAreCalls(p, RunRounds(p, start, rounds[..n]), rounds[n].requests, rounds[n].world, name);
    }
  }

  lemma {:induction false} CutOffKeepsLimit(p: Policy, start: ToolState, rounds: seq<RoundInput>, name: string)
    requires Limited(p, name) && CutOff(p, name) && NewTask(start)
    ensures WithinLimit(p, RunRounds(p, start, rounds), name)
  {
    hide RunRounds, Sum;
    ZeroAccounted(p, start);
    RoundsAccounted(p, start, rounds);
    HistoryRunsAreCalls(p, start, rounds, name);
  }

  // Repairs that drift.

  /** `k` rounds of one successful call with the same raw arguments. */
  function Repeats(name: string, arguments: Dict, k: nat): (rounds: seq<RoundInput>)
    ensures |rounds| == k
  {
    if k == 0 then [] else Repeats(name, arguments, k - 1) + [Repeat(name, arguments)]
  }

  function Repeat(name: string, arguments: Dict): RoundInput {
    RoundInput([Request(name, arguments, "id")], AlwaysDone())
  }

  function AlwaysDone(): nat -> Behaviour {
    (i: nat) => Returned(ToolResult(Success, None, Plain("")))
  }

  lemma PreparedRepeat(p: Policy, name: string, arguments: Dict)
    requires name in p.tools
    ensures Prepared(p, Repeat(name, arguments).requests) == Repeat(name, p.repairArguments(name, arguments)).requests
  {
  }

  lemma RepeatsAt(name: string, arguments: Dict, k: nat, i: nat)
    requires i < k
    ensures Repeats(name, arguments, k)[i] == Repeat(name, arguments)
  {
    hide Repeat;
  }

  lemma {:induction false} PreparedRepeats(p: Policy, name: string, arguments: Dict, k: nat, prepared: bool)
    requires name in p.tools
    ensures History(p, Repeats(name, arguments, k), prepared) == Repeats(name, Asked(p, name, arguments, prepared), k)
  {
    hide Repeat, Repeats, Prepared;
    var rounds := Repeats(name, arguments, k);
    var asked := Repeats(name, Asked(p, name, arguments, prepared), k);
    forall i | 0 <= i < k
      ensures History(p, rounds, prepared)[i] == asked[i]
    {
      RepeatsAt(name, arguments, k, i);
      RepeatsAt(name, Asked(p, name, arguments, prepared), k, i);
      PreparedRepeat(p, name, arguments);
      RepeatWorld(name, arguments);
      RepeatWorld(name, Asked(p, name, arguments, prepared));
    }
  }

  lemma RepeatWorld(name: string, arguments: Dict)
    ensures Repeat(name, arguments).world == AlwaysDone()
  {
  }

  /** `k` calls so far, all successful and with the same raw arguments. */
  predicate Drifted(p: Policy, st: ToolState, name: string, arguments: Dict, k: nat) {
    && CallsOf(st, name) == k && st.total == k
    && st.previous == if k == 0 then map[] else map[name := (p.repairArguments(name, arguments), k)]
  }

  /** If repair changes its own result, the repetition goes unnoticed. */
  lemma DriftingRound(p: Policy, st: ToolState, name: string, arguments: Dict, k: nat)
    requires Limited(p, name) && !CutOff(p, name) && k <= p.MaxSameArguments(name).value
    requires p.repairArguments(name, p.repairArguments(name, arguments)) != p.repairArguments(name, arguments)
    requires Drifted(p, st, name, arguments, k)
    ensures
      var round := Repeat(name, arguments);
      Drifted(p, ExecuteRound(p, st, round.requests, round.world).0, name, arguments, k + 1)
  {
    var requests, world := Repeat(name, arguments).requests, Repeat(name, arguments).world;
    var start := Round(st, [], map[], 0);
    assert requests[..0] == [];
    assert RunRequests(p, st, requests[..0], world) == start;
    var once := p.repairArguments(name, arguments);
    assert p.Repair(requests[0]) == Request(name, once, "id");
    assert !TaskBudgetSpent(p, st) && !CallBudgetSpent(p, st, name) && !StepLimitReached(p, start);
    assert !RepeatsTooOften(p, st, name, p.repairArguments(name, once));
    var rd := OneRequest(p, start, requests[0], world(0));
    assert RunRequests(p, st, requests, world) == rd;
    assert rd.current == map[name := once];
    assert NextPrevious(st.previous, rd.current) == map[name := (once, k + 1)];
  }

  lemma NothingDrifted(p: Policy, start: ToolState, name: string, arguments: Dict)
    requires NewTask(start)
    ensures Drifted(p, start, name, arguments, 0)
  {
  }

  lemma {:induction false} DriftingHistory(p: Policy, start: ToolState, name: string, arguments: Dict, k: nat)
    requires Limited(p, name) && !CutOff(p, name) && k <= p.MaxSameArguments(name).value + 1 && NewTask(start)
    requires p.repairArguments(name, p.repairArguments(name, arguments)) != p.repairArguments(name, arguments)
    ensures Drifted(p, RunRounds(p, start, Repeats(name, arguments, k)), name, arguments, k)
  {
    hide ExecuteRound, CutOff, Limited, Drifted, NewTask, Repeat;
    if k == 0 {
      NothingDrifted(p, start, name, arguments);
    } else {
      var rounds := Repeats(name, arguments, k);
      assert rounds[..k - 1] == Repeats(name, arguments, k - 1) && rounds[k - 1] == Repeat(name, arguments);
      DriftingHistory(p, start, name, arguments, k - 1);
      DriftingRound(p, RunRounds(p, start, rounds[..k - 1]), name, arguments, k - 1);
    }
  }

  /** The limit on repeated arguments holds in every history of a task exactly when repair settles, or another budget
      stops the tool first: for histories of raw requests when repairing twice is repairing once, and for those that
      callers have repaired already when repairing three times is repairing twice. */
  lemma {:induction false} RunLimitIsExact(p: Policy, start: ToolState, name: string, prepared: bool)
    requires Limited(p, name) && NewTask(start)
    ensures
      (forall rounds :: WithinLimit(p, RunRounds(p, start, History(p, rounds, prepared)), name))
      <==> Settles(p, name, prepared) || CutOff(p, name)
  {
    hide RunRounds, CutOff, History;
    if Settles(p, name, prepared) || CutOff(p, name) {
      forall rounds ensures WithinLimit(p, RunRounds(p, start, History(p, rounds, prepared)), name) {
        if Settles(p, name, prepared) {
          SettledRepairKeepsLimit(p, start, rounds, name, prepared);
        } else {
          CutOffKeepsLimit(p, start, History(p, rounds, prepared), name);
        }
      }
    } else {
      var arguments :| p.repairArguments(name, p.repairArguments(name, Asked(p, name, arguments, prepared)))
                         != p.repairArguments(name, Asked(p, name, arguments, prepared));
      var k := p.MaxSameArguments(name).value + 1;
      DriftingHistory(p, start, name, Asked(p, name, arguments, prepared), k);
      PreparedRepeats(p, name, arguments, k, prepared);
      assert !WithinLimit(p, RunRounds(p, start, History(p, Repeats(name, arguments, k), prepared)), name);
    }
  }

  // ---------- Snapshots ----------

  /** The registry is covered: every tool has a counter and a metrics entry. */
  predicate Covers(p: Policy, st: ToolState) {
    p.tools.Keys <= st.counts.Keys && p.tools.Keys <= st.metrics.Keys
  }

  lemma {:induction false} RoundsCover(p: Policy, st: ToolState, rounds: seq<RoundInput>)
    requires Covers(p, st)
    ensures Covers(p, RunRounds(p, st, rounds))
  {
    hide RunRequests;
    if rounds != [] {
      var n := |rounds| - 1;
      RoundsCover(p, st, rounds[..n]);
      RequestsCover(p, RunRounds(p, st, rounds[..n]), rounds[n].requests, rounds[n].world);
    }
  }

  lemma {:induction false} RequestsCover(p: Policy, st: ToolState, requests: seq<Request>, world: nat -> Behaviour)
    requires Covers(p, st)
    ensures Covers(p, RunRequests(p, st, requests, world).st)
  {
    hide Covers, Execute, RecordRejection;
    if requests != [] {
      var n := |requests| - 1;
      RequestsCover(p, st, requests[..n], world);
      var before := RunRequests(p, st, requests[..n], world).st;
      var request := p.Repair(requests[n]);
      RejectionCovers(p, before, if request.tool in p.tools then request.tool else UNKNOWN_KEY, PerStepLimit);
      CallCovers(p, before, request, world(n));
    }
  }

  lemma RejectionCovers(p: Policy, st: ToolState, name: string, reason: Reason)
    requires Covers(p, st)
    ensures Covers(p, RecordRejection(st, name, reason))
  {
  }

  lemma CallCovers(p: Policy, st: ToolState, request: Request, b: Behaviour)
    requires Covers(p, st)
    ensures Covers(p, Execute(p, st, request, b).0)
  {
    hide Refusal, RecordRejection, Ran;
    var r := p.Repair(request);
    RejectionCovers(p, st, UNKNOWN_KEY, UnknownTool);
    if r.tool in p.tools {
      var refusal := Refusal(p, st, r.tool, r.arguments);
      if refusal.Some? {
        RejectionCovers(p, st, r.tool, refusal.value.0);
      }
      RanCovers(p, st, r.tool, b);
    }
  }

  lemma RanCovers(p: Policy, st: ToolState, name: string, b: Behaviour)
    requires Covers(p, st)
    ensures Covers(p, Ran(st, name, b).0)
  {
    hide TallyFailed, TallySucceeded;
  }

  /** A manager's first state is covered, a new task stays covered, and so does whatever is restored. */
  lemma StartCovers(p: Policy, st: ToolState)
    ensures Covers(p, Registered(p)) && (Covers(p, st) ==> Covers(p, TaskStart(st))) && Covers(p, Restored(p, st))
  {
  }

  /** Whatever was executed since, restoring a snapshot brings back exactly the state it was taken in, for any
      state that a covered manager can reach; without coverage, exactly then not. */
  lemma {:induction false} RestoreRecovers(p: Policy, start: ToolState, rounds: seq<RoundInput>)
    ensures
      var saved := RunRounds(p, start, rounds);
      && (Covers(p, start) ==> Covers(p, saved))
      && (Restored(p, saved) == saved <==> Covers(p, saved))
  {
    hide RunRounds;
    var saved := RunRounds(p, start, rounds);
    if Covers(p, start) {
      RoundsCover(p, start, rounds);
    }
    RestoresCovered(p, saved);
  }

  lemma RestoresCovered(p: Policy, saved: ToolState)
    ensures Restored(p, saved) == saved <==> Covers(p, saved)
  {
    var r := Restored(p, saved);
    if Covers(p, saved) {
      assert p.tools.Keys + saved.counts.Keys == saved.counts.Keys;
      assert p.tools.Keys + saved.metrics.Keys == saved.metrics.Keys;
      assert r.counts == saved.counts && r.metrics == saved.metrics;
    } else {
      StartCovers(p, saved);
    }
  }
}
