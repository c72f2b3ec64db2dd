/** The tool manager: per-task counters updated in place, proved against `ToolPolicy`. */
module ToolManagement {
  import opened Messages
  import opened ToolAnswers
  import opened ToolPolicy

  class ToolManager {
    const policy: Policy
    var metrics: map<string, Tally>
    var counts: map<string, nat>
    var total: nat
    var unknown: map<string, nat>
    var previous: map<string, (Dict, nat)>

    /** Every registered tool has a metrics entry. */
    ghost predicate Valid()
      reads this
    {
      policy.tools.Keys <= metrics.Keys
    }

    function State(): ToolState
      reads this
    {
      ToolState(metrics, counts, total, unknown, previous)
    }

    constructor (policy: Policy)
      ensures Valid() && this.policy == policy && State() == Registered(policy)
    {
      this.policy := policy;
      metrics := map name | name in policy.tools :: NO_CALLS;
      counts := map name | name in policy.tools :: 0;
      total, unknown, previous := 0, map[], map[];
    }

    method RecordRejection(name: string, reason: Reason)
      requires Valid()
      modifies this`metrics
      ensures Valid() && State() == ToolPolicy.RecordRejection(old(State()), name, reason)
    {
      var t := if name in metrics then metrics[name] else NO_CALLS;
      t := t.(requested := t.requested + 1);
      t := t.(rejected := t.rejected + 1);
      t := t.(rejections := Bump(t.rejections, reason));
      metrics := metrics[name := t];
    }

    method RecordFailure(name: string, reason: Reason)
      requires Valid() && name in metrics
      modifies this`metrics
      ensures Valid() && State() == SetTally(old(State()), name, TallyFailed(old(metrics)[name], reason))
    {
      var t := metrics[name];
      t := t.(requested := t.requested + 1);
      t := t.(failed := t.failed + 1);
      t := t.(failures := Bump(t.failures, reason));
      metrics := metrics[name := t];
    }

    method RecordSuccess(name: string)
      requires Valid() && name in metrics
      modifies this`metrics
      ensures Valid() && State() == SetTally(old(State()), name, TallySucceeded(old(metrics)[name]))
    {
      var t := metrics[name];
      t := t.(requested := t.requested + 1);
      t := t.(success := t.success + 1);
      metrics := metrics[name := t];
    }

    /** Run a call that passed the policy. */
    method RunTool(name: string, b: Behaviour) returns (result: ToolResult)
      requires Valid() && name in policy.tools
      modifies this
      ensures Valid() && (State(), result) == Ran(old(State()), name, b)
    {
      match b {
        case BadParameters(e) =>
          RecordFailure(name, ParameterError);
          result := ToolResult(Failed, Some(ParameterError), e);
        case Threw(e) =>
          RecordFailure(name, ExecutionError);
          result := ToolResult(Failed, Some(ExecutionError), e);
        case Returned(r) =>
          result := r;
          if result.status == Failed {
            RecordFailure(name, if result.reason.Some? then result.reason.value else ExecutionError);
          } else {
            RecordSuccess(name);
          }
          counts := Bump(counts, name);
          total := total + 1;
      }
    }

    /** The policy checks, in order. */
    method CheckPolicy(name: string, arguments: Dict) returns (refusal: Option<(Reason, Text)>)
      requires Valid() && name in policy.tools
      ensures refusal == Refusal(policy, State(), name, arguments)
    {
      if policy.maxPerTask.Some? && total >= policy.maxPerTask.value {
        return Some((TaskBudget, policy.taskMessage));
      }
      var maxCalls := policy.MaxCalls(name);
      if maxCalls.Some? && (if name in counts then counts[name] else 0) >= maxCalls.value {
        return Some((CallBudget, OrDefault(policy.tools[name].budgetMessage, policy.callMessage)));
      }
      var maxSame := policy.MaxSameArguments(name);
      if maxSame.Some? && name in previous && arguments == previous[name].0 && previous[name].1 >= maxSame.value {
        return Some((SameArguments, OrDefault(policy.tools[name].sameArgumentsMessage, policy.sameArgumentsMessage)));
      }
      return None;
    }

    /** One request, with the full policy checks. */
    method Execute(raw: Request, b: Behaviour) returns (result: ToolResult)
      requires Valid()
      modifies this
      ensures Valid() && (State(), result) == ToolPolicy.Execute(policy, old(State()), raw, b)
    {
      hide ToolPolicy.RecordRejection, Ran, Bump, Refusal;
      var request := policy.Repair(raw);
      var name := request.tool;
      if name !in policy.tools {
        RecordRejection(UNKNOWN_KEY, UnknownTool);
        unknown := Bump(unknown, name);
        return Refused(UnknownTool, policy.unknownMessage(name));
      }
      var refusal := CheckPolicy(name, request.arguments);
      if refusal.Some? {
        RecordRejection(name, refusal.value.0);
        return Refused(refusal.value.0, refusal.value.1);
      }
      result := RunTool(name, b);
    }

    /** One round of requests. */
    method ExecuteToolCalls(requests: seq<Request>, world: nat -> Behaviour) returns (outcomes: seq<ToolOutcome>)
      requires Valid()
      modifies this
      ensures Valid() && (State(), outcomes) == ExecuteRound(policy, old(State()), requests, world)
    {
      hide OneRequest;
      ghost var before := State();
      outcomes := [];
      var current: map<string, Dict> := map[];
      var steps := 0;
      for i := 0 to |requests|
        invariant Valid()
        invariant Round(State(), outcomes, current, steps) == RunRequests(policy, before, requests[..i], world)
      {
        assert requests[..i + 1][..i] == requests[..i];
        outcomes, current, steps := HandleRequest(requests[i], world(i), outcomes, current, steps);
      }
      assert requests[..|requests|] == requests;
      KeepsPrevious(policy, before, requests, world);
      previous := BuildPrevious(current);
    }

    /** One iteration of a round. */
    method HandleRequest(raw: Request, b: Behaviour, outcomes0: seq<ToolOutcome>, current0: map<string, Dict>,
                         steps0: nat)
      returns (outcomes: seq<ToolOutcome>, current: map<string, Dict>, steps: nat)
      requires Valid()
      modifies this
      ensures Valid()
      ensures Round(State(), outcomes, current, steps)
           == OneRequest(policy, Round(old(State()), outcomes0, current0, steps0), raw, b)
    {
      hide ToolPolicy.Execute, ToolPolicy.RecordRejection;
      outcomes, current, steps := outcomes0, current0, steps0;
      var request := policy.Repair(raw);
      var result: ToolResult;
      if policy.maxPerStep.Some? && steps >= policy.maxPerStep.value {
        RecordRejection(if request.tool in policy.tools then request.tool else UNKNOWN_KEY, PerStepLimit);
        result := Refused(PerStepLimit, policy.stepMessage);
      } else {
        result := Execute(request, b);
        if result.status != Rejected {
          steps := steps + 1;
        }
        if result.status == Success {
          current := current[request.tool := request.arguments];
        }
      }
      var message := ToolMessage(result.content, request.callId, request.tool);
      outcomes := outcomes + [ToolOutcome(request, result, message)];
    }

    /** The next round's tracking, from this round's successful calls. */
    method BuildPrevious(current: map<string, Dict>) returns (next: map<string, (Dict, nat)>)
      ensures next == NextPrevious(previous, current)
    {
      next := map[];
      var names := current.Keys;
      while names != {}
        invariant names <= current.Keys && next.Keys == current.Keys - names
        invariant forall name :: name in next ==> next[name] == NextPrevious(previous, current)[name]
        decreases |names|
      {
        var name :| name in names;
        if name in previous && previous[name].0 == current[name] {
          next := next[name := (current[name], previous[name].1 + 1)];
        } else {
          next := next[name := (current[name], 1)];
        }
        names := names - {name};
      }
    }

    method AllToolsExhausted() returns (exhausted: bool)
      requires Valid()
      ensures exhausted <==> Exhausted(policy, State())
    {
      if policy.maxPerTask.Some? && total >= policy.maxPerTask.value {
        return true;
      }
      if policy.tools == map[] {
        return false;
      }
      var names := policy.tools.Keys;
      while names != {}
        invariant names <= policy.tools.Keys
        invariant forall name :: name in policy.tools.Keys - names ==> CallBudgetSpent(policy, State(), name)
        decreases |names|
      {
        var name :| name in names;
        var maxCalls := policy.MaxCalls(name);
        if maxCalls.None? || (if name in counts then counts[name] else 0) < maxCalls.value {
          assert !CallBudgetSpent(policy, State(), name);
          return false;
        }
        names := names - {name};
      }
      return true;
    }

    method ResetTaskState()
      requires Valid()
      modifies this
      ensures Valid() && State() == TaskStart(old(State()))
    {
      counts := map name | name in counts :: 0;
      total := 0;
      unknown := map[];
      previous := map[];
      metrics := map name | name in metrics :: NO_CALLS;
    }

    method SnapshotTaskState() returns (snapshot: ToolState)
      requires Valid()
      ensures snapshot == State()
    {
      snapshot := ToolState(metrics, counts, total, unknown, previous);
    }

    /** Back to a saved state; tools that it does not know start from zero. */
    method RestoreTaskState(snapshot: ToolState)
      modifies this
      ensures Valid() && State() == Restored(policy, snapshot)
    {
      counts := WithDefaults(policy.tools.Keys, snapshot.counts, 0);
      total, unknown, previous := snapshot.total, snapshot.unknown, snapshot.previous;
      metrics := WithDefaults(policy.tools.Keys, snapshot.metrics, NO_CALLS);
      ghost var restored := Restored(policy, snapshot);
      assert counts == restored.counts;
      assert metrics == restored.metrics;
    }
  }

  /** `setdefault` for each of some names. */
  method WithDefaults<V>(names: set<string>, m: map<string, V>, default: V) returns (r: map<string, V>)
    ensures r == map name | name in names + m.Keys :: if name in m then m[name] else default
  {
    r := m;
    var rest := names;
    while rest != {}
      invariant rest <= names
      invariant forall name :: name in r <==> name in m || (name in names && name !in rest)
      invariant forall name :: name in r ==> r[name] == if name in m then m[name] else default
      decreases |rest|
    {
      var name :| name in rest;
      if name !in r {
        r := r[name := default];
      }
      rest := rest - {name};
    }
  }
}
