/**
 * The permission gate. A request for a tool that needs approval becomes a
 * pending request, announced with a `permission-required` event, and waits
 * for one decision; approving "all" adds the tool's name to the set of
 * auto-approved names, whose requests are granted at once from then on.
 *
 * The promise and event handshake is split in two steps: `Request` answers
 * at once or hands back the id of the pending request, and `Decide` settles
 * a pending request, returning what the promise resolves to (or `None` when
 * no request with that id is pending, so the event reaches no listener).
 */
module Permissions {
  import opened Wrappers
  import opened JsValues
  import opened ToolTypes

  /** The decisions the dialog sends. Any other string resolves as a denial. */
  const APPROVE_ONCE: string := "approve_once"
  const APPROVE_ALL: string := "approve_all"
  const DENY: string := "deny"

  /** A pending request; the id is drawn from a counter instead of the clock
      and a random suffix. */
  datatype PermissionRequest = PermissionRequest(id: nat, toolName: string, params: JsValue, timestamp: int)

  /** `pending` lists the pending requests in insertion order, `emitted` the
      requests announced with `permission-required`, oldest first. */
  datatype GateState = GateState(
    pending: seq<PermissionRequest>,
    autoApprovals: set<string>,
    nextId: nat,
    emitted: seq<PermissionRequest>)

  datatype Answer = Immediate(granted: bool) | Pending(id: nat)

  const INITIAL: GateState := GateState([], {}, 0, [])

  /** Pending ids are fresh and increase in insertion order. */
  ghost predicate WellFormed(g: GateState) {
    (forall i, j :: 0 <= i < j < |g.pending| ==> g.pending[i].id < g.pending[j].id) &&
    (forall i :: 0 <= i < |g.pending| ==> g.pending[i].id < g.nextId)
  }

  predicate IsPending(g: GateState, id: nat) {
    exists i | 0 <= i < |g.pending| :: g.pending[i].id == id
  }

  /** The position of the pending request with this id. */
  function Find(pending: seq<PermissionRequest>, id: nat): (r: Option<nat>)
    ensures r.Some? ==> r.value < |pending| && pending[r.value].id == id
    ensures r.Some? ==> forall i :: 0 <= i < r.value ==> pending[i].id != id
    ensures r.None? ==> forall i :: 0 <= i < |pending| ==> pending[i].id != id
  {
    if pending == [] then None
    else if pending[0].id == id then Some(0)
    else
      match Find(pending[1..], id)
      case None => None
      case Some(k) => Some(k + 1)
  }

  /** `requestPermission(tool, params)` up to the point where it awaits. */
  function Request(g: GateState, tool: ToolDefinition, params: JsValue, now: int): (GateState, Answer) {
    if !tool.needsApproval || tool.name in g.autoApprovals then
      (g, Immediate(true))
    else
      var request := PermissionRequest(g.nextId, tool.name, params, now);
      (g.(pending := g.pending + [request], nextId := g.nextId + 1, emitted := g.emitted + [request]),
       Pending(request.id))
  }

  /** `handleDecision(id, decision)` and the single-shot listener it wakes. */
  function Decide(g: GateState, id: nat, decision: string): (GateState, Option<bool>) {
    match Find(g.pending, id)
    case None => (g, None)
    case Some(k) =>
      var request := g.pending[k];
      var rest := g.pending[..k] + g.pending[k + 1..];
      if decision == APPROVE_ALL then
        (g.(pending := rest, autoApprovals := g.autoApprovals + {request.toolName}), Some(true))
      else if decision == APPROVE_ONCE then
        (g.(pending := rest), Some(true))
      else
        (g.(pending := rest), Some(false))
  }

  /** `getLatestPendingRequest()`. */
  function Latest(g: GateState): Option<PermissionRequest> {
    if g.pending == [] then None else Some(g.pending[|g.pending| - 1])
  }

  /** `resetAutoApprovals()`. */
  function Reset(g: GateState): GateState {
    g.(autoApprovals := {})
  }

  // ---------------------------------------------------------------------
  // The gate, as a stateful object

  class PermissionManager {
    var pendingRequests: seq<PermissionRequest>
    var autoApprovals: set<string>
    var nextId: nat
    var emitted: seq<PermissionRequest>

    function State(): GateState
      reads this
    {
      GateState(pendingRequests, autoApprovals, nextId, emitted)
    }

    ghost predicate Valid()
      reads this
    {
      WellFormed(State())
    }

    constructor()
      ensures State() == INITIAL && Valid()
    {
      pendingRequests := [];
      autoApprovals := {};
      nextId := 0;
      emitted := [];
    }

    method RequestPermission(tool: ToolDefinition, params: JsValue, now: int) returns (answer: Answer)
      requires Valid()
      modifies this
      ensures Valid()
      ensures (State(), answer) == Request(old(State()), tool, params, now)
    {
      if !tool.needsApproval {
        return Immediate(true);
      }
      if tool.name in autoApprovals {
        return Immediate(true);
      }
      var request := PermissionRequest(nextId, tool.name, params, now);
      nextId := nextId + 1;
      pendingRequests := pendingRequests + [request];
      emitted := emitted + [request];
      answer := Pending(request.id);
      RequestKeepsWellFormed(old(State()), tool, params, now);
    }

    method HandleDecision(id: nat, decision: string) returns (resolved: Option<bool>)
      requires Valid()
      modifies this
      ensures Valid()
      ensures (State(), resolved) == Decide(old(State()), id, decision)
    {
      DecideKeepsWellFormed(State(), id, decision);
      var found := Find(pendingRequests, id);
      if found.None? {
        return None;
      }
      var k := found.value;
      var request := pendingRequests[k];
      pendingRequests := pendingRequests[..k] + pendingRequests[k + 1..];
      if decision == APPROVE_ALL {
        autoApprovals := autoApprovals + {request.toolName};
        resolved := Some(true);
      } else if decision == APPROVE_ONCE {
        resolved := Some(true);
      } else {
        resolved := Some(false);
      }
    }

    /** The most recently created request still pending, or none. */
    method GetLatestPendingRequest() returns (r: Option<PermissionRequest>)
      requires Valid()
      ensures r == Latest(State())
      ensures r.None? <==> pendingRequests == []
      ensures r.Some? ==> r.value in pendingRequests &&
                          forall q :: q in pendingRequests ==> q.id <= r.value.id
    {
      LatestIsNewest(State());
      if |pendingRequests| == 0 {
        return None;
      }
      return Some(pendingRequests[|pendingRequests| - 1]);
    }

    method ResetAutoApprovals()
      requires Valid()
      modifies this
      ensures Valid()
      ensures State() == Reset(old(State()))
    {
      autoApprovals := {};
    }
  }

  // ---------------------------------------------------------------------
  // Properties of the gate

  /** A tool that needs no approval, or whose name is auto-approved, is granted
      at once: nothing is queued and nothing is announced. */
  lemma RequestFastPath(g: GateState, tool: ToolDefinition, params: JsValue, now: int)
    ensures var (g', answer) := Request(g, tool, params, now);
            (!tool.needsApproval || tool.name in g.autoApprovals) <==>
            (answer == Immediate(true) && g' == g)
  {
  }

  /** Otherwise exactly one request, for this tool and these parameters and
      under a fresh id, is queued and announced. */
  lemma RequestSlowPath(g: GateState, tool: ToolDefinition, params: JsValue, now: int)
    requires WellFormed(g)
    requires tool.needsApproval && tool.name !in g.autoApprovals
    ensures var (g', answer) := Request(g, tool, params, now);
            exists request: PermissionRequest ::
              request.toolName == tool.name && request.params == params &&
              !IsPending(g, request.id) &&
              answer == Pending(request.id) &&
              g'.pending == g.pending + [request] &&
              g'.emitted == g.emitted + [request] &&
              g'.autoApprovals == g.autoApprovals
  {
    var request := PermissionRequest(g.nextId, tool.name, params, now);
    assert !IsPending(g, request.id);
  }

  lemma RequestKeepsWellFormed(g: GateState, tool: ToolDefinition, params: JsValue, now: int)
    requires WellFormed(g)
    ensures WellFormed(Request(g, tool, params, now).0)
  {
  }

  /** Removing one element keeps the ids increasing. */
  lemma RemoveKeepsOrder(p: seq<PermissionRequest>, k: nat)
    requires k < |p|
    requires forall i, j :: 0 <= i < j < |p| ==> p[i].id < p[j].id
    ensures var r := p[..k] + p[k + 1..];
            forall i, j :: 0 <= i < j < |r| ==> r[i].id < r[j].id
  {
    var r := p[..k] + p[k + 1..];
    forall i, j | 0 <= i < j < |r| ensures r[i].id < r[j].id {
      var i' := if i < k then i else i + 1;
      var j' := if j < k then j else j + 1;
      assert r[i] == p[i'] && r[j] == p[j'];
    }
  }

  lemma DecideKeepsWellFormed(g: GateState, id: nat, decision: string)
    requires WellFormed(g)
    ensures WellFormed(Decide(g, id, decision).0)
  {
    match Find(g.pending, id)
    case None =>
    case Some(k) =>
      RemoveKeepsOrder(g.pending, k);
      var rest := g.pending[..k] + g.pending[k + 1..];
      forall i | 0 <= i < |rest| ensures rest[i].id < g.nextId {
        assert rest[i] in g.pending;
      }
  }

  lemma ResetKeepsWellFormed(g: GateState)
    requires WellFormed(g)
    ensures WellFormed(Reset(g)) && Reset(g).pending == g.pending && Reset(g).autoApprovals == {}
  {
  }

  /** With increasing ids, dropping position `k` drops exactly the element
      with that position's id. */
  lemma RemoveMembers(p: seq<PermissionRequest>, k: nat)
    requires k < |p|
    requires forall i, j :: 0 <= i < j < |p| ==> p[i].id < p[j].id
    ensures forall q :: q in p[..k] + p[k + 1..] <==> q in p && q.id != p[k].id
  {
    var rest := p[..k] + p[k + 1..];
    forall q ensures q in rest <==> q in p && q.id != p[k].id {
      if q in rest {
        var i :| 0 <= i < |rest| && rest[i] == q;
        var i' := if i < k then i else i + 1;
        assert p[i'] == q && i' != k;
      }
      if q in p && q.id != p[k].id {
        var i :| 0 <= i < |p| && p[i] == q;
        if i < k { assert rest[i] == q; } else { assert rest[i - 1] == q; }
      }
    }
  }

  /** A decision on a pending request removes exactly that request; every
      other pending request stays, in order. */
  lemma DecideRemovesExactly(g: GateState, id: nat, decision: string)
    requires WellFormed(g)
    requires IsPending(g, id)
    ensures var g' := Decide(g, id, decision).0;
            |g'.pending| == |g.pending| - 1 &&
            !IsPending(g', id) &&
            (forall q :: q in g'.pending <==> q in g.pending && q.id != id) &&
            g'.nextId == g.nextId && g'.emitted == g.emitted
    ensures var k := Find(g.pending, id).value;
            Decide(g, id, decision).0.pending == g.pending[..k] + g.pending[k + 1..]
  {
    var k := Find(g.pending, id).value;
    var rest := g.pending[..k] + g.pending[k + 1..];
    assert Decide(g, id, decision).0.pending == rest;
    RemoveMembers(g.pending, k);
  }

  /** "approve_all" grants the request and adds its tool's name to the
      auto-approved names. */
  lemma DecideApproveAll(g: GateState, k: nat)
    requires k < |g.pending|
    requires forall i :: 0 <= i < k ==> g.pending[i].id != g.pending[k].id
    ensures var (g', r) := Decide(g, g.pending[k].id, APPROVE_ALL);
            r == Some(true) && g'.autoApprovals == g.autoApprovals + {g.pending[k].toolName}
  {
    var f := Find(g.pending, g.pending[k].id);
    assert f == Some(k) by {
      if f.value < k { }
      if f.value > k { }
    }
  }

  /** "approve_once" grants the request and leaves the auto-approved names. */
  lemma DecideApproveOnce(g: GateState, id: nat)
    requires IsPending(g, id)
    ensures var (g', r) := Decide(g, id, APPROVE_ONCE);
            r == Some(true) && g'.autoApprovals == g.autoApprovals
  {
  }

  /** "deny", or any string other than the two approvals, refuses the request
      and leaves the auto-approved names. */
  lemma DecideOther(g: GateState, id: nat, decision: string)
    requires IsPending(g, id)
    requires decision != APPROVE_ALL && decision != APPROVE_ONCE
    ensures var (g', r) := Decide(g, id, decision);
            r == Some(false) && g'.autoApprovals == g.autoApprovals
  {
  }

  /** A decision for an id that is not pending changes nothing. */
  lemma DecideUnknown(g: GateState, id: nat, decision: string)
    ensures !IsPending(g, id) <==> Decide(g, id, decision) == (g, None)
  {
    if Find(g.pending, id).Some? {
      var k := Find(g.pending, id).value;
      assert |Decide(g, id, decision).0.pending| == |g.pending| - 1;
    }
  }

  /** The listener is single-shot: a second decision on the same request is a
      no-op. */
  lemma DecideTwice(g: GateState, id: nat, first: string, second: string)
    requires WellFormed(g)
    ensures var g' := Decide(g, id, first).0;
            Decide(g', id, second) == (g', None)
  {
    if IsPending(g, id) {
      DecideRemovesExactly(g, id, first);
    }
    DecideUnknown(Decide(g, id, first).0, id, second);
  }

  /** The latest request is the pending one created last. */
  lemma LatestIsNewest(g: GateState)
    requires WellFormed(g)
    ensures Latest(g).None? <==> g.pending == []
    ensures Latest(g).Some? ==> Latest(g).value in g.pending &&
                                forall q :: q in g.pending ==> q.id <= Latest(g).value.id
  {
    if g.pending != [] {
      var n := |g.pending|;
      forall q | q in g.pending ensures q.id <= g.pending[n - 1].id {
        var i :| 0 <= i < n && g.pending[i] == q;
      }
    }
  }

  /** A request that was just queued is the latest one. */
  lemma LatestAfterRequest(g: GateState, tool: ToolDefinition, params: JsValue, now: int)
    requires tool.needsApproval && tool.name !in g.autoApprovals
    ensures var (g', answer) := Request(g, tool, params, now);
            Latest(g').Some? && answer == Pending(Latest(g').value.id) &&
            Latest(g').value.toolName == tool.name
  {
  }

  // ---------------------------------------------------------------------
  // Runs of requests and decisions

  datatype Step =
    | Ask(tool: ToolDefinition, params: JsValue, now: int)
    | Answer(id: nat, decision: string)

  function Run(g: GateState, steps: seq<Step>): GateState
    decreases |steps|
  {
    if steps == [] then g
    else
      var g' := match steps[0]
        case Ask(tool, params, now) => Request(g, tool, params, now).0
        case Answer(id, decision) => Decide(g, id, decision).0;
      Run(g', steps[1..])
  }

  /** Requests and decisions never shrink the auto-approved names. */
  lemma {:induction false} RunKeepsAutoApprovals(g: GateState, steps: seq<Step>)
    ensures g.autoApprovals <= Run(g, steps).autoApprovals
    decreases |steps|
  {
    if steps != [] {
      var g' := match steps[0]
        case Ask(tool, params, now) => Request(g, tool, params, now).0
        case Answer(id, decision) => Decide(g, id, decision).0;
      RunKeepsAutoApprovals(g', steps[1..]);
    }
  }

  /** After "approve_all" on a request, every later request for the same tool
      name, whatever happened in between short of a reset, is granted at once. */
  lemma ApproveAllThenFastPath(g: GateState, k: nat, steps: seq<Step>,
                               tool: ToolDefinition, params: JsValue, now: int)
    requires k < |g.pending|
    requires forall i :: 0 <= i < k ==> g.pending[i].id != g.pending[k].id
    requires tool.name == g.pending[k].toolName
    ensures var g' := Run(Decide(g, g.pending[k].id, APPROVE_ALL).0, steps);
            Request(g', tool, params, now) == (g', Immediate(true))
  {
    DecideApproveAll(g, k);
    RunKeepsAutoApprovals(Decide(g, g.pending[k].id, APPROVE_ALL).0, steps);
  }
}
