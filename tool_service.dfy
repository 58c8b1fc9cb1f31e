/**
 * Tool dispatch: look the tool up by name, ask the permission gate, and run
 * the tool only when permission is granted. A call whose request is left
 * pending is suspended in `AwaitingDecision` and finished by `Resume` once
 * the decision arrives.
 */
module ToolServices {
  import opened Wrappers
  import opened JsValues
  import opened ToolTypes
  import opened Permissions
  import opened Registry

  const USER_DENIED: string := "User denied this operation!"

  function NotFound(name: string): string {
    "Tool " + name + " not found"
  }

  /** One invocation of a tool's `execute`. */
  datatype Invocation = Invocation(toolName: string, args: JsValue)

  datatype CallState =
    | Finished(outcome: Outcome)
    | AwaitingDecision(id: nat, tool: ToolDefinition, args: JsValue)

  /** The gate after a step, the state of the call, and the tool executions
      the step performed. */
  datatype CallResult = CallResult(gate: GateState, state: CallState, calls: seq<Invocation>)

  /** What `callTool` settles to once permission is known. */
  function Settle(tool: ToolDefinition, args: JsValue, permitted: bool): (Outcome, seq<Invocation>) {
    if permitted then (tool.execute(args), [Invocation(tool.name, args)])
    else (Thrown(USER_DENIED), [])
  }

  /** `callTool(name, args)` up to its first suspension. */
  function Call(r: RegistryState, g: GateState, name: string, args: JsValue, now: int): CallResult {
    match Lookup(r, name)
    case None => CallResult(g, Finished(Thrown(NotFound(name))), [])
    case Some(tool) =>
      var (g', answer) := Request(g, tool, args, now);
      match answer
      case Immediate(granted) =>
        var (outcome, calls) := Settle(tool, args, granted);
        CallResult(g', Finished(outcome), calls)
      case Pending(id) => CallResult(g', AwaitingDecision(id, tool, args), [])
  }

  /** Delivering a decision to a suspended call. The call stays suspended when
      the decision is for no pending request. */
  function Deliver(g: GateState, st: CallState, decision: string): CallResult {
    match st
    case Finished(_) => CallResult(g, st, [])
    case AwaitingDecision(id, tool, args) =>
      var (g', resolved) := Decide(g, id, decision);
      match resolved
      case None => CallResult(g', st, [])
      case Some(permitted) =>
        var (outcome, calls) := Settle(tool, args, permitted);
        CallResult(g', Finished(outcome), calls)
  }

  class ToolService {
    const registry: ToolRegistry
    const permissions: PermissionManager
    /** Every `execute` performed through this service, oldest first. */
    var executed: seq<Invocation>

    ghost predicate Valid()
      reads this, registry, permissions
    {
      registry.Valid() && permissions.Valid()
    }

    constructor(registry: ToolRegistry, permissions: PermissionManager)
      requires registry.Valid() && permissions.Valid()
      ensures this.registry == registry && this.permissions == permissions
      ensures executed == [] && Valid()
    {
      this.registry := registry;
      this.permissions := permissions;
      executed := [];
    }

    method CallTool(name: string, args: JsValue, now: int) returns (st: CallState)
      requires Valid()
      modifies this, permissions
      ensures Valid()
      ensures var c := Call(registry.State(), old(permissions.State()), name, args, now);
              permissions.State() == c.gate && st == c.state && executed == old(executed) + c.calls
    {
      var tool := registry.GetTool(name);
      if tool.None? {
        return Finished(Thrown(NotFound(name)));
      }
      var answer := permissions.RequestPermission(tool.value, args, now);
      if answer.Pending? {
        return AwaitingDecision(answer.id, tool.value, args);
      }
      var outcome := RunTool(tool.value, args, answer.granted);
      st := Finished(outcome);
    }

    method Resume(st: CallState, decision: string) returns (st': CallState)
      requires Valid()
      modifies this, permissions
      ensures Valid()
      ensures var c := Deliver(old(permissions.State()), st, decision);
              permissions.State() == c.gate && st' == c.state && executed == old(executed) + c.calls
    {
      if st.Finished? {
        return st;
      }
      var resolved := permissions.HandleDecision(st.id, decision);
      if resolved.None? {
        return st;
      }
      var outcome := RunTool(st.tool, st.args, resolved.value);
      st' := Finished(outcome);
    }

    method RunTool(tool: ToolDefinition, args: JsValue, permitted: bool) returns (outcome: Outcome)
      modifies this
      ensures outcome == Settle(tool, args, permitted).0
      ensures executed == old(executed) + Settle(tool, args, permitted).1
    {
      if !permitted {
        assert executed + [] == executed;
        return Thrown(USER_DENIED);
      }
      executed := executed + [Invocation(tool.name, args)];
      outcome := tool.execute(args);
    }
  }

  // ---------------------------------------------------------------------
  // Properties of dispatch

  /** An unknown tool name fails with "Tool <name> not found", asks for no
      permission and runs nothing. */
  lemma UnknownTool(r: RegistryState, g: GateState, name: string, args: JsValue, now: int)
    requires name !in r.tools
    ensures Call(r, g, name, args, now) == CallResult(g, Finished(Thrown(NotFound(name))), [])
  {
  }

  /** A denied call fails with "User denied this operation!" and runs nothing;
      a granted one settles exactly as the tool's `execute` on the caller's
      arguments, run once. */
  lemma SettleCases(tool: ToolDefinition, args: JsValue, permitted: bool)
    ensures !permitted <==> Settle(tool, args, permitted) == (Thrown(USER_DENIED), [])
    ensures permitted <==>
              Settle(tool, args, permitted) == (tool.execute(args), [Invocation(tool.name, args)])
  {
  }

  /** A registered tool that needs approval and is not auto-approved is
      suspended on one new request, which carries the tool's name and exactly
      the caller's arguments; nothing runs yet. */
  lemma CallAsksWithArgs(r: RegistryState, g: GateState, name: string, args: JsValue, now: int)
    requires Registry.WellFormed(r) && Permissions.WellFormed(g)
    requires name in r.tools && r.tools[name].needsApproval && name !in g.autoApprovals
    ensures var c := Call(r, g, name, args, now);
            c.state.AwaitingDecision? && c.calls == [] &&
            c.state.tool == r.tools[name] && c.state.args == args &&
            |c.gate.pending| == |g.pending| + 1 &&
            c.gate.pending[|g.pending|] == c.gate.emitted[|g.emitted|] &&
            c.gate.pending[|g.pending|].id == c.state.id &&
            c.gate.pending[|g.pending|].toolName == name &&
            c.gate.pending[|g.pending|].params == args
  {
  }

  /** A registered tool that needs no approval, or is auto-approved, runs at
      once with the caller's arguments and leaves the gate as it was. */
  lemma CallRunsAtOnce(r: RegistryState, g: GateState, name: string, args: JsValue, now: int)
    requires Registry.WellFormed(r)
    requires name in r.tools && (!r.tools[name].needsApproval || name in g.autoApprovals)
    ensures Call(r, g, name, args, now) ==
            CallResult(g, Finished(r.tools[name].execute(args)), [Invocation(name, args)])
  {
  }

  /** A suspended call finishes with the decision: approvals run the tool,
      anything else fails as denied without running it. */
  lemma ResumeDecides(r: RegistryState, g: GateState, name: string, args: JsValue, now: int, decision: string)
    requires Registry.WellFormed(r) && Permissions.WellFormed(g)
    requires name in r.tools && r.tools[name].needsApproval && name !in g.autoApprovals
    ensures var c := Call(r, g, name, args, now);
            var d := Deliver(c.gate, c.state, decision);
            var approved := decision == APPROVE_ALL || decision == APPROVE_ONCE;
            d.state == Finished(Settle(r.tools[name], args, approved).0) &&
            d.calls == Settle(r.tools[name], args, approved).1 &&
            d.gate.pending == g.pending
  {
    var c := Call(r, g, name, args, now);
    var k := |g.pending|;
    assert c.gate.pending == g.pending + [c.gate.pending[k]];
    assert forall i :: 0 <= i < k ==> c.gate.pending[i].id != c.gate.pending[k].id;
    var f := Find(c.gate.pending, c.state.id);
    assert f == Some(k) by {
      if f.value < k { }
    }
    assert c.gate.pending[..k] + c.gate.pending[k + 1..] == g.pending;
  }

  /** After "approve_all", later calls of the same tool run at once, whatever
      requests and decisions come between. */
  lemma ApproveAllThenRunsAtOnce(r: RegistryState, g: GateState, name: string, args: JsValue, now: int,
                                 steps: seq<Permissions.Step>, args': JsValue, now': int)
    requires Registry.WellFormed(r) && Permissions.WellFormed(g)
    requires name in r.tools && r.tools[name].needsApproval && name !in g.autoApprovals
    ensures var c := Call(r, g, name, args, now);
            var g' := Run(Deliver(c.gate, c.state, APPROVE_ALL).gate, steps);
            Call(r, g', name, args', now') ==
            CallResult(g', Finished(r.tools[name].execute(args')), [Invocation(name, args')])
  {
    var c := Call(r, g, name, args, now);
    var k := |g.pending|;
    assert forall i :: 0 <= i < k ==> c.gate.pending[i].id != c.gate.pending[k].id;
    assert Deliver(c.gate, c.state, APPROVE_ALL).gate == Decide(c.gate, c.gate.pending[k].id, APPROVE_ALL).0;
    ApproveAllThenFastPath(c.gate, k, steps, r.tools[name], args', now');
  }
}
