/** A task's tool calls as a log, with every decision read off the log itself: no counter, no stored run. The tool
    manager's counters, and its answers to every request of every round, are proved to be those of the log. */
module ToolHistory {
  import opened Messages
  import opened ToolPolicy

  /** One request as decided: repaired once, what the world did if it was let through, and its result. */
  datatype Entry = Entry(request: Request, ran: Option<Behaviour>, result: ToolResult)

  // ---------- Reading the log ----------

  ghost function Count(log: seq<Entry>, counted: Entry -> bool): nat {
    if log == [] then 0 else Count(log[..|log| - 1], counted) + (if counted(log[|log| - 1]) then 1 else 0)
  }

  lemma {:induction false} CountSnoc(log: seq<Entry>, e: Entry, counted: Entry -> bool)
    ensures Count(log + [e], counted) == Count(log, counted) + (if counted(e) then 1 else 0)
  {
  }

  /** A call that came back from its tool, whatever the tool said. */
  predicate CameBack(e: Entry) {
    e.ran.Some? && e.ran.value.Returned?
  }

  function Calls(): Entry -> bool {
    (e: Entry) => CameBack(e)
  }

  function CallsOfTool(name: string): Entry -> bool {
    (e: Entry) => CameBack(e) && e.request.tool == name
  }

  function NotRejected(): Entry -> bool {
    (e: Entry) => e.result.status != Rejected
  }

  ghost function CallsIn(log: seq<Entry>): nat {
    Count(log, Calls())
  }

  ghost function CallsTo(log: seq<Entry>, name: string): nat {
    Count(log, CallsOfTool(name))
  }

  /** The requests of a round that used up one of its places. */
  ghost function PlacesTaken(round: seq<Entry>): nat {
    Count(round, NotRejected())
  }

  /** The arguments with which a tool last succeeded in a round. */
  function LastSuccess(round: seq<Entry>, name: string): Option<Dict> {
    if round == [] then None else
    var e := round[|round| - 1];
    if e.request.tool == name && e.result.status == Success then Some(e.request.arguments)
    else LastSuccess(round[..|round| - 1], name)
  }

  /** How many rounds in a row, up to the last one, ended in a success with these arguments. */
  function Streak(rounds: seq<seq<Entry>>, name: string, arguments: Dict): nat {
    if rounds == [] || LastSuccess(rounds[|rounds| - 1], name) != Some(arguments) then 0
    else 1 + Streak(rounds[..|rounds| - 1], name, arguments)
  }

  function All(rounds: seq<seq<Entry>>): seq<Entry> {
    if rounds == [] then [] else All(rounds[..|rounds| - 1]) + rounds[|rounds| - 1]
  }

  // ---------- Deciding from the log ----------

  /** A tool's own limit counts before the shared default. */
  predicate Reached(n: nat, own: Option<int>, shared: Option<nat>) {
    (own.Some? && n >= own.value) || (own.None? && shared.Some? && n >= shared.value)
  }

  function Wording(own: Option<Text>, shared: Text): Text {
    match own
    case Some(text) => if text == Plain("") then shared else text
    case None => shared
  }

  /** Why a request is refused after the rounds `rounds` and the requests `round` of the running one, and with what
      words; None if it is let through. Its arguments were repaired once, and are repaired again to be compared. */
  ghost function Refusing(p: Policy, rounds: seq<seq<Entry>>, round: seq<Entry>, r: Request): Option<(Reason, Text)> {
    var log := All(rounds) + round;
    if p.maxPerStep.Some? && PlacesTaken(round) >= p.maxPerStep.value then Some((PerStepLimit, p.stepMessage))
    else if r.tool !in p.tools then Some((UnknownTool, p.unknownMessage(r.tool)))
    else
      var tool := p.tools[r.tool];
      var streak := Streak(rounds, r.tool, p.repairArguments(r.tool, r.arguments));
      if p.maxPerTask.Some? && CallsIn(log) >= p.maxPerTask.value then Some((TaskBudget, p.taskMessage))
      else if Reached(CallsTo(log, r.tool), tool.maxCalls, p.defaultMaxCalls) then
        Some((CallBudget, Wording(tool.budgetMessage, p.callMessage)))
      else if streak > 0 && Reached(streak, tool.maxSameArguments, p.defaultMaxSameArguments) then
        Some((SameArguments, Wording(tool.sameArgumentsMessage, p.sameArgumentsMessage)))
      else None
  }

  function ResultOf(b: Behaviour): ToolResult {
    match b
    case BadParameters(error) => ToolResult(Failed, Some(ParameterError), error)
    case Threw(error) => ToolResult(Failed, Some(ExecutionError), error)
    case Returned(result) => result
  }

  ghost function Decided(p: Policy, rounds: seq<seq<Entry>>, round: seq<Entry>, raw: Request, b: Behaviour): Entry {
    var request := if raw.tool in p.tools then raw.(arguments := p.repairArguments(raw.tool, raw.arguments)) else raw;
    var refusing := Refusing(p, rounds, round, request);
    if refusing.None? then Entry(request, Some(b), ResultOf(b))
    else Entry(request, None, ToolResult(Rejected, Some(refusing.value.0), refusing.value.1))
  }

  ghost function RoundLog(p: Policy, rounds: seq<seq<Entry>>, requests: seq<Request>, world: nat -> Behaviour)
    : (r: seq<Entry>)
    ensures |r| == |requests|
  {
    if requests == [] then [] else
    var n := |requests| - 1;
    var before := RoundLog(p, rounds, requests[..n], world);
    before + [Decided(p, rounds, before, requests[n], world(n))]
  }

  ghost function TaskLog(p: Policy, inputs: seq<RoundInput>): seq<seq<Entry>> {
    if inputs == [] then [] else
    var last := inputs[|inputs| - 1];
    var before := TaskLog(p, inputs[..|inputs| - 1]);
    before + [RoundLog(p, before, last.requests, last.world)]
  }

  // ---------- What the counters mean ----------

  /** Where a request is booked. */
  function Booked(p: Policy, e: Entry): string {
    if e.request.tool in p.tools then e.request.tool else UNKNOWN_KEY
  }

  function FailureOf(e: Entry): Reason {
    match e.ran
    case Some(Returned(result)) => if result.reason.Some? then result.reason.value else ExecutionError
    case Some(BadParameters(_)) => ParameterError
    case _ => ExecutionError
  }

  function At<K>(m: map<K, nat>, k: K): nat {
    if k in m then m[k] else 0
  }

  function Requests(p: Policy, key: string): Entry -> bool {
    (e: Entry) => Booked(p, e) == key
  }

  function Rejections(p: Policy, key: string): Entry -> bool {
    (e: Entry) => Booked(p, e) == key && e.ran.None?
  }

  function RejectionsFor(p: Policy, key: string, why: Reason): Entry -> bool {
    (e: Entry) => Booked(p, e) == key && e.ran.None? && e.result.reason == Some(why)
  }

  function Failures(p: Policy, key: string): Entry -> bool {
    (e: Entry) => Booked(p, e) == key && e.ran.Some? && e.result.status == Failed
  }

  function FailuresFor(p: Policy, key: string, why: Reason): Entry -> bool {
    (e: Entry) => Booked(p, e) == key && e.ran.Some? && e.result.status == Failed && FailureOf(e) == why
  }

  function Others(p: Policy, key: string): Entry -> bool {
    (e: Entry) => Booked(p, e) == key && e.ran.Some? && e.result.status != Failed
  }

  function UnknownTools(name: string): Entry -> bool {
    (e: Entry) => e.request.tool == name && e.ran.None? && e.result.reason == Some(UnknownTool)
  }

  ghost predicate TallyIs(p: Policy, t: Tally, log: seq<Entry>, key: string) {
    && t.requested == Count(log, Requests(p, key))
    && t.rejected == Count(log, Rejections(p, key))
    && t.failed == Count(log, Failures(p, key))
    && t.success == Count(log, Others(p, key))
    && (forall why :: At(t.rejections, why) == Count(log, RejectionsFor(p, key, why)))
    && (forall why :: At(t.failures, why) == Count(log, FailuresFor(p, key, why)))
  }

  ghost predicate TotalsAre(st: ToolState, log: seq<Entry>) {
    && st.total == CallsIn(log)
    && (forall name :: CallsOf(st, name) == CallsTo(log, name))
    && (forall name :: At(st.unknown, name) == Count(log, UnknownTools(name)))
  }

  ghost predicate TalliesAre(p: Policy, st: ToolState, log: seq<Entry>) {
    forall key :: TallyIs(p, TallyOf(st, key), log, key)
  }

  /** The counters of a manager are those of the log. */
  ghost predicate CountersAre(p: Policy, st: ToolState, log: seq<Entry>) {
    TotalsAre(st, log) && TalliesAre(p, st, log)
  }

  /** The stored runs are the streaks of the rounds so far. */
  ghost predicate StreaksAre(previous: map<string, (Dict, nat)>, rounds: seq<seq<Entry>>) {
    forall name ::
      if rounds == [] || LastSuccess(rounds[|rounds| - 1], name).None? then name !in previous
      else
        var arguments := LastSuccess(rounds[|rounds| - 1], name).value;
        name in previous && previous[name] == (arguments, Streak(rounds, name, arguments))
  }

  // ---------- The counters follow the log ----------

  lemma CountAny(log: seq<Entry>, e: Entry)
    ensures forall f: Entry -> bool :: Count(log + [e], f) == Count(log, f) + (if f(e) then 1 else 0)
  {
    forall f: Entry -> bool ensures Count(log + [e], f) == Count(log, f) + (if f(e) then 1 else 0) {
      CountSnoc(log, e, f);
    }
  }

  lemma TallyRejectedIs(p: Policy, t: Tally, log: seq<Entry>, key: string, e: Entry, why: Reason)
    requires TallyIs(p, t, log, key) && e.ran.None? && e.result.reason == Some(why)
    ensures TallyIs(p, if Booked(p, e) == key then TallyRejected(t, why) else t, log + [e], key)
  {
    hide Count;
    CountAny(log, e);
  }

  lemma TallyRanIs(p: Policy, t: Tally, log: seq<Entry>, key: string, e: Entry)
    requires TallyIs(p, t, log, key) && e.ran.Some?
    ensures
      TallyIs(p, if Booked(p, e) != key then t else if e.result.status == Failed then TallyFailed(t, FailureOf(e))
                 else TallySucceeded(t), log + [e], key)
  {
    hide Count;
    CountAny(log, e);
  }

  /** One more entry touches the tally of its own key only. */
  lemma TalliesGrow(p: Policy, st: ToolState, log: seq<Entry>, e: Entry, t: Tally)
    requires TalliesAre(p, st, log) && TallyIs(p, t, log + [e], Booked(p, e))
    ensures TalliesAre(p, SetTally(st, Booked(p, e), t), log + [e])
  {
    var after := SetTally(st, Booked(p, e), t);
    forall key ensures TallyIs(p, TallyOf(after, key), log + [e], key) {
      if key != Booked(p, e) {
        assert TallyIs(p, TallyOf(st, key), log, key);
        hide TallyIs;
        OtherTally(p, TallyOf(st, key), log, key, e);
      }
    }
  }

  lemma OtherTally(p: Policy, t: Tally, log: seq<Entry>, key: string, e: Entry)
    requires TallyIs(p, t, log, key) && key != Booked(p, e)
    ensures TallyIs(p, t, log + [e], key)
  {
    hide Count;
    CountAny(log, e);
  }

  lemma RejectedTallies(p: Policy, st: ToolState, log: seq<Entry>, e: Entry, why: Reason)
    requires TalliesAre(p, st, log) && e.ran.None? && e.result.reason == Some(why)
    ensures TalliesAre(p, RecordRejection(st, Booked(p, e), why), log + [e])
  {
    assert TallyIs(p, TallyOf(st, Booked(p, e)), log, Booked(p, e));
    hide TallyIs, TalliesAre;
    TallyRejectedIs(p, TallyOf(st, Booked(p, e)), log, Booked(p, e), e, why);
    TalliesGrow(p, st, log, e, TallyRejected(TallyOf(st, Booked(p, e)), why));
  }

  lemma TalliesElsewhere(p: Policy, a: ToolState, b: ToolState, log: seq<Entry>)
    requires TalliesAre(p, a, log) && a.metrics == b.metrics
    ensures TalliesAre(p, b, log)
  {
    hide TallyIs;
    forall key ensures TallyIs(p, TallyOf(b, key), log, key) {
      assert TallyOf(b, key) == TallyOf(a, key);
    }
  }

  /** A refused request counts nowhere, an unknown tool by its name. */
  lemma RefusedTotals(st: ToolState, log: seq<Entry>, e: Entry)
    requires TotalsAre(st, log) && e.ran.None?
    ensures
      TotalsAre(if e.result.reason == Some(UnknownTool) then st.(unknown := Bump(st.unknown, e.request.tool)) else st,
                log + [e])
  {
    hide Count;
    CountAny(log, e);
    var after := if e.result.reason == Some(UnknownTool) then st.(unknown := Bump(st.unknown, e.request.tool)) else st;
    forall name
      ensures CallsOf(after, name) == CallsTo(log + [e], name)
      ensures At(after.unknown, name) == Count(log + [e], UnknownTools(name))
    {
      assert CallsOf(st, name) == CallsTo(log, name);
      assert At(st.unknown, name) == Count(log, UnknownTools(name));
    }
  }

  lemma RanTotals(st: ToolState, log: seq<Entry>, e: Entry)
    requires TotalsAre(st, log) && e.ran.Some?
    ensures TotalsAre(if CameBack(e) then CountCall(st, e.request.tool) else st, log + [e])
  {
    hide Count;
    CountAny(log, e);
    var after := if CameBack(e) then CountCall(st, e.request.tool) else st;
    forall name
      ensures CallsOf(after, name) == CallsTo(log + [e], name)
      ensures At(after.unknown, name) == Count(log + [e], UnknownTools(name))
    {
      assert CallsOf(st, name) == CallsTo(log, name);
      assert At(st.unknown, name) == Count(log, UnknownTools(name));
    }
  }

  lemma RejectionIs(p: Policy, st: ToolState, log: seq<Entry>, e: Entry, why: Reason)
    requires CountersAre(p, st, log) && e.ran.None? && e.result.reason == Some(why) && why != UnknownTool
    ensures CountersAre(p, RecordRejection(st, Booked(p, e), why), log + [e])
  {
    hide TalliesAre, Count;
    RejectedTallies(p, st, log, e, why);
    RefusedTotals(st, log, e);
  }

  lemma UnknownIs(p: Policy, st: ToolState, log: seq<Entry>, e: Entry)
    requires CountersAre(p, st, log) && e.ran.None? && e.result.reason == Some(UnknownTool)
    ensures
      var after := RecordRejection(st, Booked(p, e), UnknownTool).(unknown := Bump(st.unknown, e.request.tool));
      CountersAre(p, after, log + [e])
  {
    hide TalliesAre, Count;
    RejectedTallies(p, st, log, e, UnknownTool);
    var after := RecordRejection(st, Booked(p, e), UnknownTool).(unknown := Bump(st.unknown, e.request.tool));
    TalliesElsewhere(p, RecordRejection(st, Booked(p, e), UnknownTool), after, log + [e]);
    RefusedTotals(st, log, e);
  }

  lemma RanTallies(p: Policy, st: ToolState, log: seq<Entry>, e: Entry)
    requires TalliesAre(p, st, log) && e.ran.Some?
    ensures
      var t := TallyOf(st, Booked(p, e));
      var booked := if e.result.status == Failed then TallyFailed(t, FailureOf(e)) else TallySucceeded(t);
      TalliesAre(p, SetTally(st, Booked(p, e), booked), log + [e])
  {
    var t := TallyOf(st, Booked(p, e));
    assert TallyIs(p, t, log, Booked(p, e));
    hide TallyIs, TalliesAre;
    TallyRanIs(p, t, log, Booked(p, e), e);
    TalliesGrow(p, st, log, e, if e.result.status == Failed then TallyFailed(t, FailureOf(e)) else TallySucceeded(t));
  }

  lemma RanIs(p: Policy, st: ToolState, log: seq<Entry>, e: Entry)
    requires CountersAre(p, st, log) && e.ran.Some? && e.result == ResultOf(e.ran.value) && e.request.tool in p.tools
    ensures
      var (after, result) := Ran(st, e.request.tool, e.ran.value);
      result == e.result && CountersAre(p, after, log + [e])
  {
    hide TalliesAre, Count, TallyFailed, TallySucceeded;
    var t := TallyOf(st, Booked(p, e));
    var booked := if e.result.status == Failed then TallyFailed(t, FailureOf(e)) else TallySucceeded(t);
    RanTallies(p, st, log, e);
    TalliesElsewhere(p, SetTally(st, Booked(p, e), booked), Ran(st, e.request.tool, e.ran.value).0, log + [e]);
    RanTotals(st, log, e);
  }

  // ---------- The decisions follow the log ----------

  /** A round in progress, as the log has it. */
  ghost predicate RoundIs(p: Policy, rd: Round, rounds: seq<seq<Entry>>, round: seq<Entry>) {
    && CountersAre(p, rd.st, All(rounds) + round)
    && StreaksAre(rd.st.previous, rounds)
    && rd.steps == PlacesTaken(round)
    && (forall name :: LastSuccess(round, name) == if name in rd.current then Some(rd.current[name]) else None)
    && |rd.outcomes| == |round|
    && forall i :: 0 <= i < |round| ==> rd.outcomes[i] == OutcomeOf(round[i])
  }

  function OutcomeOf(e: Entry): ToolOutcome {
    ToolOutcome(e.request, e.result, ToolMessage(e.result.content, e.request.callId, e.request.tool))
  }

  lemma StreakIs(previous: map<string, (Dict, nat)>, rounds: seq<seq<Entry>>, name: string, arguments: Dict)
    requires StreaksAre(previous, rounds)
    ensures
      Streak(rounds, name, arguments)
      == if name in previous && previous[name].0 == arguments then previous[name].1 else 0
    ensures name in previous ==> previous[name].1 > 0
  {
  }

  /** Where the step limit lets it pass, the manager's refusal of a request for a registered tool is the log's. */
  lemma RefusalIs(p: Policy, st: ToolState, rounds: seq<seq<Entry>>, round: seq<Entry>, r: Request)
    requires CountersAre(p, st, All(rounds) + round) && StreaksAre(st.previous, rounds) && r.tool in p.tools
    requires !(p.maxPerStep.Some? && PlacesTaken(round) >= p.maxPerStep.value)
    ensures
      Refusal(p, st, r.tool, p.repairArguments(r.tool, r.arguments)) == Refusing(p, rounds, round, r)
  {
    hide Count, TalliesAre, StreaksAre, Streak, CallsIn, CallsTo, PlacesTaken;
    StreakIs(st.previous, rounds, r.tool, p.repairArguments(r.tool, r.arguments));
  }

  lemma KeepsStreaks(st: ToolState, name: string, why: Reason, b: Behaviour)
    ensures RecordRejection(st, name, why).previous == st.previous && Ran(st, name, b).0.previous == st.previous
  {
  }

  /** A request that the step limit lets pass is executed as the log decides. */
  lemma ExecutionIs(p: Policy, st: ToolState, rounds: seq<seq<Entry>>, round: seq<Entry>, raw: Request, b: Behaviour)
    requires CountersAre(p, st, All(rounds) + round) && StreaksAre(st.previous, rounds)
    requires !(p.maxPerStep.Some? && PlacesTaken(round) >= p.maxPerStep.value)
    ensures
      var e, (after, result) := Decided(p, rounds, round, raw, b), Execute(p, st, p.Repair(raw), b);
      e.result == result && CountersAre(p, after, All(rounds) + round + [e]) && after.previous == st.previous
  {
    hide CountersAre, StreaksAre, Refusal, RecordRejection, Ran, Streak, PlacesTaken, CallsIn, CallsTo;
    var e, log, r := Decided(p, rounds, round, raw, b), All(rounds) + round, p.Repair(raw);
    var name := r.tool;
    if name !in p.tools {
      UnknownIs(p, st, log, e);
      KeepsStreaks(st, UNKNOWN_KEY, UnknownTool, b);
    } else {
      RefusalIs(p, st, rounds, round, r);
      NeverUnknown(p, st, name, p.repairArguments(name, r.arguments));
      var refusing := Refusing(p, rounds, round, r);
      if refusing.Some? {
        RejectionIs(p, st, log, e, refusing.value.0);
        KeepsStreaks(st, name, refusing.value.0, b);
      } else {
        RanIs(p, st, log, e);
        KeepsStreaks(st, name, UnknownTool, b);
      }
    }
  }

  lemma NeverUnknown(p: Policy, st: ToolState, name: string, arguments: Dict)
    requires name in p.tools
    ensures Refusal(p, st, name, arguments).Some? ==> Refusal(p, st, name, arguments).value.0 != UnknownTool
  {
  }

  lemma RequestDecided(p: Policy, rd: Round, rounds: seq<seq<Entry>>, round: seq<Entry>, raw: Request, b: Behaviour)
    requires RoundIs(p, rd, rounds, round)
    ensures
      var e, after := Decided(p, rounds, round, raw, b), OneRequest(p, rd, raw, b);
      && CountersAre(p, after.st, All(rounds) + round + [e]) && after.st.previous == rd.st.previous
      && after == Grown(rd, e, after.st)
  {
    hide CountersAre, StreaksAre, Execute, RecordRejection, PlacesTaken, LastSuccess;
    var e := Decided(p, rounds, round, raw, b);
    if StepLimitReached(p, rd) {
      RejectionIs(p, rd.st, All(rounds) + round, e, PerStepLimit);
      KeepsStreaks(rd.st, Booked(p, e), PerStepLimit, b);
    } else {
      ExecutionIs(p, rd.st, rounds, round, raw, b);
    }
  }

  /** A round with one more entry. */
  function Grown(rd: Round, e: Entry, st: ToolState): Round {
    Round(
      st, rd.outcomes + [OutcomeOf(e)],
      if e.result.status == Success then rd.current[e.request.tool := e.request.arguments] else rd.current,
      if e.result.status != Rejected then rd.steps + 1 else rd.steps)
  }

  lemma RequestIs(p: Policy, rd: Round, rounds: seq<seq<Entry>>, round: seq<Entry>, raw: Request, b: Behaviour)
    requires RoundIs(p, rd, rounds, round)
    ensures RoundIs(p, OneRequest(p, rd, raw, b), rounds, round + [Decided(p, rounds, round, raw, b)])
  {
    hide CountersAre, StreaksAre, OneRequest, Decided, LastSuccess, Count;
    var e := Decided(p, rounds, round, raw, b);
    RequestDecided(p, rd, rounds, round, raw, b);
    assert All(rounds) + round + [e] == All(rounds) + (round + [e]);
    CountSnoc(round, e, NotRejected());
    SuccessSnoc(round, e);
  }

  lemma {:induction false} SuccessSnoc(round: seq<Entry>, e: Entry)
    ensures
      forall name ::
        LastSuccess(round + [e], name) ==
        if e.request.tool == name && e.result.status == Success then Some(e.request.arguments)
        else LastSuccess(round, name)
  {
  }

  lemma {:induction false} RoundRefines(p: Policy, st: ToolState, rounds: seq<seq<Entry>>, requests: seq<Request>,
                                        world: nat -> Behaviour)
    requires CountersAre(p, st, All(rounds)) && StreaksAre(st.previous, rounds)
    ensures RoundIs(p, RunRequests(p, st, requests, world), rounds, RoundLog(p, rounds, requests, world))
  {
    hide OneRequest, Decided, CountersAre, StreaksAre;
    if requests == [] {
      assert All(rounds) + [] == All(rounds);
    } else {
      var n := |requests| - 1;
      RoundRefines(p, st, rounds, requests[..n], world);
      RequestIs(p, RunRequests(p, st, requests[..n], world), rounds, RoundLog(p, rounds, requests[..n], world),
                requests[n], world(n));
    }
  }

  lemma StreaksGrow(previous: map<string, (Dict, nat)>, rounds: seq<seq<Entry>>, round: seq<Entry>,
                    current: map<string, Dict>)
    requires StreaksAre(previous, rounds)
    requires forall name :: LastSuccess(round, name) == if name in current then Some(current[name]) else None
    ensures StreaksAre(NextPrevious(previous, current), rounds + [round])
  {
    hide LastSuccess;
    forall name | name in current
      ensures Streak(rounds + [round], name, current[name]) == 1 + Streak(rounds, name, current[name])
    {
      assert (rounds + [round])[..|rounds|] == rounds;
    }
    forall name | name in current
      ensures NextPrevious(previous, current)[name] == (current[name], 1 + Streak(rounds, name, current[name]))
    {
      StreakIs(previous, rounds, name, current[name]);
    }
  }

  /** Over any rounds of a new task, the counters, metrics and stored runs are those of the log. */
  lemma {:induction false} TaskRefines(p: Policy, start: ToolState, inputs: seq<RoundInput>)
    requires NewTask(start)
    ensures
      var st, log := RunRounds(p, start, inputs), TaskLog(p, inputs);
      CountersAre(p, st, All(log)) && StreaksAre(st.previous, log)
  {
    if inputs == [] {
      NothingLogged(p, start);
    } else {
      hide CountersAre, StreaksAre, RunRequests, RoundLog, NextPrevious, NewTask;
      var n := |inputs| - 1;
      TaskRefines(p, start, inputs[..n]);
      var st, log := RunRounds(p, start, inputs[..n]), TaskLog(p, inputs[..n]);
      RoundRefines(p, st, log, inputs[n].requests, inputs[n].world);
      var rd, round := RunRequests(p, st, inputs[n].requests, inputs[n].world),
        RoundLog(p, log, inputs[n].requests, inputs[n].world);
      RoundCloses(p, rd, log, round, NextPrevious(rd.st.previous, rd.current));
      KeepsPrevious(p, st, inputs[n].requests, inputs[n].world);
    }
  }

  lemma NothingLogged(p: Policy, start: ToolState)
    requires NewTask(start)
    ensures CountersAre(p, start, []) && StreaksAre(start.previous, [])
  {
  }

  lemma RoundCloses(p: Policy, rd: Round, rounds: seq<seq<Entry>>, round: seq<Entry>,
                    previous: map<string, (Dict, nat)>)
    requires RoundIs(p, rd, rounds, round) && previous == NextPrevious(rd.st.previous, rd.current)
    ensures CountersAre(p, rd.st.(previous := previous), All(rounds + [round]))
    ensures StreaksAre(previous, rounds + [round])
  {
    hide Count, StreaksAre, NextPrevious, TalliesAre;
    assert (rounds + [round])[..|rounds|] == rounds;
    StreaksGrow(rd.st.previous, rounds, round, rd.current);
    TalliesElsewhere(p, rd.st, rd.st.(previous := previous), All(rounds) + round);
  }

  /** After any rounds of a new task, the next round is answered request by request as the log decides. */
  lemma OutcomesRefine(p: Policy, start: ToolState, inputs: seq<RoundInput>, requests: seq<Request>,
                       world: nat -> Behaviour)
    requires NewTask(start)
    ensures
      var outcomes, round := ExecuteRound(p, RunRounds(p, start, inputs), requests, world).1,
                             RoundLog(p, TaskLog(p, inputs), requests, world);
      && |outcomes| == |round| == |requests|
      && forall i :: 0 <= i < |requests| ==>
           && outcomes[i].request == round[i].request && outcomes[i].result == round[i].result
           && outcomes[i].message == ToolMessage(round[i].result.content, requests[i].callId, requests[i].tool)
  {
    hide RunRequests, NextPrevious, CountersAre, StreaksAre;
    TaskRefines(p, start, inputs);
    RoundRefines(p, RunRounds(p, start, inputs), TaskLog(p, inputs), requests, world);
    OneOutcomePerRequest(p, RunRounds(p, start, inputs), requests, world);
  }

  /** The tools are exhausted exactly when the log holds as many calls as the task allows, or as many to every
      registered tool as that tool allows. */
  lemma ExhaustionIs(p: Policy, start: ToolState, inputs: seq<RoundInput>)
    requires NewTask(start)
    ensures
      var log := All(TaskLog(p, inputs));
      Exhausted(p, RunRounds(p, start, inputs)) <==>
        || (p.maxPerTask.Some? && CallsIn(log) >= p.maxPerTask.value)
        || (p.tools != map[] && forall name :: name in p.tools ==>
              Reached(CallsTo(log, name), p.tools[name].maxCalls, p.defaultMaxCalls))
  {
    hide RunRounds, TaskLog, CallsIn, CallsTo, TalliesAre, StreaksAre;
    TaskRefines(p, start, inputs);
  }

  // ---------- A call repeated until it is refused ----------

  /** No other budget stops the first `limit` + 1 calls. */
  predicate OnlyRepeatsCount(p: Policy, name: string, limit: nat)
    requires name in p.tools
  {
    && p.maxPerStep != Some(0)
    && (p.maxPerTask.Some? ==> limit < p.maxPerTask.value)
    && !Reached(limit, p.tools[name].maxCalls, p.defaultMaxCalls)
  }

  /** The limit that holds for this tool: its own, or the shared one. */
  predicate LimitedTo(p: Policy, name: string, limit: nat)
    requires name in p.tools
  {
    || p.tools[name].maxSameArguments == Some(limit)
    || (p.tools[name].maxSameArguments.None? && p.defaultMaxSameArguments == Some(limit))
  }

  function DoneEntry(p: Policy, name: string, arguments: Dict): Entry {
    var done := ToolResult(Success, None, Plain(""));
    Entry(Request(name, p.repairArguments(name, arguments), "id"), Some(Returned(done)), done)
  }

  /** `k` rounds of one call that went through. */
  ghost predicate AllDone(p: Policy, log: seq<seq<Entry>>, name: string, arguments: Dict, k: nat) {
    |log| == k && forall i :: 0 <= i < k ==> log[i] == [DoneEntry(p, name, arguments)]
  }

  lemma {:induction false} DoneCounts(p: Policy, log: seq<seq<Entry>>, name: string, arguments: Dict, k: nat)
    requires AllDone(p, log, name, arguments, k)
    ensures CallsIn(All(log)) == k && CallsTo(All(log), name) == k
    ensures Streak(log, name, p.repairArguments(name, arguments)) == k
  {
    if k > 0 {
      var e := DoneEntry(p, name, arguments);
      DoneCounts(p, log[..k - 1], name, arguments, k - 1);
      CountSnoc(All(log[..k - 1]), e, Calls());
      CountSnoc(All(log[..k - 1]), e, CallsOfTool(name));
      assert LastSuccess([e], name) == Some(e.request.arguments);
    }
  }

  lemma RepeatDecided(p: Policy, log: seq<seq<Entry>>, name: string, arguments: Dict, k: nat, limit: nat)
    requires AllDone(p, log, name, arguments, k) && name in p.tools && 1 <= limit && k <= limit
    requires OnlyRepeatsCount(p, name, limit) && LimitedTo(p, name, limit)
    requires p.repairArguments(name, p.repairArguments(name, arguments)) == p.repairArguments(name, arguments)
    ensures
      var round := RoundLog(p, log, Repeat(name, arguments).requests, Repeat(name, arguments).world);
      && |round| == 1
      && (k < limit ==> round == [DoneEntry(p, name, arguments)])
      && (k == limit ==> round[0].ran.None? && round[0].result.status == Rejected
                         && round[0].result.reason == Some(SameArguments))
  {
    hide CallsIn, CallsTo, Streak, AllDone;
    DoneCounts(p, log, name, arguments, k);
    var requests, world := Repeat(name, arguments).requests, Repeat(name, arguments).world;
    assert requests[..0] == [] && All(log) + [] == All(log);
    assert RoundLog(p, log, requests, world) == [Decided(p, log, [], requests[0], world(0))];
  }

  lemma RepeatsLogged(p: Policy, name: string, arguments: Dict, k: nat)
    ensures
      TaskLog(p, Repeats(name, arguments, k)) ==
        if k == 0 then []
        else
          var before, round := TaskLog(p, Repeats(name, arguments, k - 1)), Repeat(name, arguments);
          before + [RoundLog(p, before, round.requests, round.world)]
  {
    hide RoundLog, Repeat;
    if k > 0 {
      assert Repeats(name, arguments, k)[..k - 1] == Repeats(name, arguments, k - 1);
    }
  }

  lemma {:induction false} RepeatsDone(p: Policy, name: string, arguments: Dict, k: nat, limit: nat)
    requires name in p.tools && 1 <= limit && k <= limit
    requires OnlyRepeatsCount(p, name, limit) && LimitedTo(p, name, limit)
    requires p.repairArguments(name, p.repairArguments(name, arguments)) == p.repairArguments(name, arguments)
    ensures AllDone(p, TaskLog(p, Repeats(name, arguments, k)), name, arguments, k)
  {
    hide OnlyRepeatsCount, LimitedTo, RoundLog, TaskLog, Repeats, Repeat, DoneEntry;
    RepeatsLogged(p, name, arguments, k);
    if k > 0 {
      RepeatsDone(p, name, arguments, k - 1, limit);
      RepeatDecided(p, TaskLog(p, Repeats(name, arguments, k - 1)), name, arguments, k - 1, limit);
    }
  }

  /** A repeat within its limit runs, and the first one beyond is refused for nothing else: with settled arguments and
      room in the other budgets, each of the first `limit` rounds of the same successful call goes through, and the next
      one is rejected. */
  lemma RepeatsRunUpToTheLimit(p: Policy, start: ToolState, name: string, arguments: Dict, k: nat, limit: nat)
    requires name in p.tools && NewTask(start) && 1 <= limit && k <= limit
    requires OnlyRepeatsCount(p, name, limit) && LimitedTo(p, name, limit)
    requires p.repairArguments(name, p.repairArguments(name, arguments)) == p.repairArguments(name, arguments)
    ensures
      var round := Repeat(name, arguments);
      var outcomes := ExecuteRound(p, RunRounds(p, start, Repeats(name, arguments, k)), round.requests, round.world).1;
      && |outcomes| == 1
      && (k < limit ==> outcomes[0].result == ToolResult(Success, None, Plain("")))
      && (k == limit ==> outcomes[0].result.status == Rejected && outcomes[0].result.reason == Some(SameArguments))
  {
    hide ExecuteRound, RunRounds, RoundLog, AllDone, NewTask, OnlyRepeatsCount, LimitedTo;
    RepeatsDone(p, name, arguments, k, limit);
    RepeatDecided(p, TaskLog(p, Repeats(name, arguments, k)), name, arguments, k, limit);
    var round := Repeat(name, arguments);
    OutcomesRefine(p, start, Repeats(name, arguments, k), round.requests, round.world);
  }
}
