/**
 * The tool registry: a name-keyed map that keeps first-registration order
 * (a JavaScript `Map` keeps a key's position when its value is replaced).
 */
module Registry {
  import opened Wrappers
  import opened ToolTypes

  /** `order` lists the registered names in the order the map enumerates them. */
  datatype RegistryState = RegistryState(tools: map<string, ToolDefinition>, order: seq<string>)

  const EMPTY: RegistryState := RegistryState(map[], [])

  ghost predicate WellFormed(r: RegistryState) {
    (forall i, j :: 0 <= i < j < |r.order| ==> r.order[i] != r.order[j]) &&
    (forall n :: n in r.tools <==> n in r.order) &&
    (forall n :: n in r.tools ==> r.tools[n].name == n)
  }

  /** `register(tool)`: set the entry under the tool's name. */
  function With(r: RegistryState, t: ToolDefinition): RegistryState {
    RegistryState(r.tools[t.name := t], if t.name in r.tools then r.order else r.order + [t.name])
  }

  /** `getTool(name)`. */
  function Lookup(r: RegistryState, name: string): Option<ToolDefinition> {
    if name in r.tools then Some(r.tools[name]) else None
  }

  /** `getAITools()`: one descriptor per entry, in enumeration order. */
  function Descriptors(r: RegistryState): seq<AITool>
    requires WellFormed(r)
  {
    seq(|r.order|, i requires 0 <= i < |r.order| => Describe(r.tools[r.order[i]]))
  }

  class ToolRegistry {
    var tools: map<string, ToolDefinition>
    var order: seq<string>

    function State(): RegistryState
      reads this
    {
      RegistryState(tools, order)
    }

    ghost predicate Valid()
      reads this
    {
      WellFormed(State())
    }

    constructor()
      ensures State() == EMPTY && Valid()
    {
      tools := map[];
      order := [];
    }

    method Register(t: ToolDefinition)
      requires Valid()
      modifies this
      ensures Valid()
      ensures State() == With(old(State()), t)
    {
      WithKeepsWellFormed(State(), t);
      if t.name !in tools {
        order := order + [t.name];
      }
      tools := tools[t.name := t];
    }

    /** The entry under `name`, which carries that name, or none. */
    function GetTool(name: string): (r: Option<ToolDefinition>)
      requires Valid()
      reads this
      ensures r == Lookup(State(), name)
      ensures r.Some? <==> name in order
      ensures r.Some? ==> r.value.name == name
    {
      if name in tools then Some(tools[name]) else None
    }

    /** One function descriptor per registered name, in enumeration order,
        carrying the tool's name and description. */
    function GetAITools(): (r: seq<AITool>)
      requires Valid()
      reads this
      ensures |r| == |order|
      ensures forall i :: 0 <= i < |order| ==>
                r[i].kind == FUNCTION_KIND && r[i].name == order[i] &&
                r[i].description == tools[order[i]].description
      ensures r == Descriptors(State())
    {
      Descriptors(State())
    }
  }

  // ---------------------------------------------------------------------
  // Properties of a single registration

  lemma WithKeepsWellFormed(r: RegistryState, t: ToolDefinition)
    requires WellFormed(r)
    ensures WellFormed(With(r, t))
  {
  }

  /** After registering `t`, looking up its name yields `t`; every other name
      yields what it did before. */
  lemma LookupAfterWith(r: RegistryState, t: ToolDefinition, name: string)
    ensures Lookup(With(r, t), name) == if name == t.name then Some(t) else Lookup(r, name)
  {
  }

  /** Re-registering a name replaces its entry in place: the order of names
      is unchanged. */
  lemma ReRegisterKeepsOrder(r: RegistryState, t: ToolDefinition)
    requires t.name in r.tools
    ensures With(r, t).order == r.order
  {
  }

  // ---------------------------------------------------------------------
  // Properties of a run of registrations, starting from the empty registry

  function RegisterAll(ts: seq<ToolDefinition>): RegistryState
    decreases |ts|
  {
    if ts == [] then EMPTY else With(RegisterAll(ts[..|ts| - 1]), ts[|ts| - 1])
  }

  function Names(ts: seq<ToolDefinition>): seq<string> {
    seq(|ts|, i requires 0 <= i < |ts| => ts[i].name)
  }

  /** The position of the first tool registered under `name`. */
  function FirstIndex(ts: seq<ToolDefinition>, name: string): (k: nat)
    requires name in Names(ts)
    ensures k < |ts| && ts[k].name == name
    ensures forall i :: 0 <= i < k ==> ts[i].name != name
  {
    if ts[0].name == name then 0
    else
      assert Names(ts[1..]) == Names(ts)[1..];
      FirstIndex(ts[1..], name) + 1
  }

  lemma {:induction false} RegisterAllWellFormed(ts: seq<ToolDefinition>)
    ensures WellFormed(RegisterAll(ts))
    decreases |ts|
  {
    if ts != [] {
      RegisterAllWellFormed(ts[..|ts| - 1]);
      WithKeepsWellFormed(RegisterAll(ts[..|ts| - 1]), ts[|ts| - 1]);
    }
  }

  /** A name that was never registered is not found. */
  lemma {:induction false} NeverRegistered(ts: seq<ToolDefinition>, name: string)
    requires forall i :: 0 <= i < |ts| ==> ts[i].name != name
    ensures Lookup(RegisterAll(ts), name) == None
    decreases |ts|
  {
    if ts != [] {
      NeverRegistered(ts[..|ts| - 1], name);
    }
  }

  /** The last registration under a name wins. */
  lemma {:induction false} LastRegistrationWins(ts: seq<ToolDefinition>, k: nat)
    requires k < |ts|
    requires forall i :: k < i < |ts| ==> ts[i].name != ts[k].name
    ensures Lookup(RegisterAll(ts), ts[k].name) == Some(ts[k])
    decreases |ts|
  {
    if k < |ts| - 1 {
      LastRegistrationWins(ts[..|ts| - 1], k);
    }
  }

  /** The registered names are exactly the names of the tools registered. */
  lemma {:induction false} RegisterAllKeys(ts: seq<ToolDefinition>)
    ensures forall n :: n in RegisterAll(ts).tools <==> n in Names(ts)
    decreases |ts|
  {
    if ts != [] {
      var front := ts[..|ts| - 1];
      RegisterAllKeys(front);
      assert Names(ts) == Names(front) + [ts[|ts| - 1].name];
    }
  }

  /** Every name in `order` was registered, and `order` lists names by the
      position of their first registration. */
  ghost predicate OrderedByFirstRegistration(ts: seq<ToolDefinition>, order: seq<string>) {
    (forall n :: n in order ==> n in Names(ts)) &&
    (forall i, j :: 0 <= i < j < |order| ==>
       FirstIndex(ts, order[i]) < FirstIndex(ts, order[j]))
  }

  /** The registry enumerates each registered name once, ordered by the
      position of its first registration. */
  lemma RegisterAllOrder(ts: seq<ToolDefinition>)
    ensures var order := RegisterAll(ts).order;
            (forall n :: n in order <==> n in Names(ts)) &&
            (forall i, j :: 0 <= i < j < |order| ==> order[i] != order[j]) &&
            OrderedByFirstRegistration(ts, order)
  {
    RegisterAllWellFormed(ts);
    RegisterAllKeys(ts);
    RegisterAllSorted(ts);
  }

  lemma {:induction false} RegisterAllSorted(ts: seq<ToolDefinition>)
    ensures OrderedByFirstRegistration(ts, RegisterAll(ts).order)
    decreases |ts|
  {
    if ts != [] {
      var front := ts[..|ts| - 1];
      var t := ts[|ts| - 1];
      RegisterAllSorted(front);
      RegisterAllKeys(front);
      var before := RegisterAll(front).order;
      assert RegisterAll(ts).order == if t.name in Names(front) then before else before + [t.name];
      assert ts == front + [t];
      SortedStep(front, t, before);
    }
  }

  /** One registration keeps the names ordered by first registration. */
  lemma SortedStep(front: seq<ToolDefinition>, t: ToolDefinition, before: seq<string>)
    requires OrderedByFirstRegistration(front, before)
    ensures OrderedByFirstRegistration(front + [t],
              if t.name in Names(front) then before else before + [t.name])
  {
    FirstIndexesKept(front, t);
    if t.name !in Names(front) {
      SortedStepNew(front, t, before);
    }
  }

  lemma FirstIndexesKept(front: seq<ToolDefinition>, t: ToolDefinition)
    ensures forall n :: n in Names(front) ==>
              n in Names(front + [t]) && FirstIndex(front + [t], n) == FirstIndex(front, n)
  {
    forall n | n in Names(front)
      ensures n in Names(front + [t]) && FirstIndex(front + [t], n) == FirstIndex(front, n)
    {
      FirstIndexOfPrefix(front, t, n);
    }
  }

  lemma SortedStepNew(front: seq<ToolDefinition>, t: ToolDefinition, before: seq<string>)
    requires t.name !in Names(front)
    requires OrderedByFirstRegistration(front, before)
    requires forall n :: n in Names(front) ==>
               n in Names(front + [t]) && FirstIndex(front + [t], n) == FirstIndex(front, n)
    ensures OrderedByFirstRegistration(front + [t], before + [t.name])
  {
    var ts := front + [t];
    var order := before + [t.name];
    FirstIndexOfNew(front, t);
    forall i, j | 0 <= i < j < |order| ensures FirstIndex(ts, order[i]) < FirstIndex(ts, order[j]) {
      assert order[i] == before[i];
      if j < |before| {
        assert order[j] == before[j];
      }
    }
  }

  lemma FirstIndexOfNew(front: seq<ToolDefinition>, t: ToolDefinition)
    requires t.name !in Names(front)
    ensures t.name in Names(front + [t])
    ensures FirstIndex(front + [t], t.name) == |front|
  {
    var ts := front + [t];
    assert Names(ts) == Names(front) + [t.name];
    forall i | 0 <= i < |front| ensures ts[i].name != t.name {
      assert ts[i].name == Names(front)[i];
    }
  }

  lemma FirstIndexOfPrefix(front: seq<ToolDefinition>, t: ToolDefinition, name: string)
    requires name in Names(front)
    ensures name in Names(front + [t])
    ensures FirstIndex(front + [t], name) == FirstIndex(front, name)
  {
    var ts := front + [t];
    assert Names(ts) == Names(front) + [t.name];
    var k := FirstIndex(front, name);
    var m := FirstIndex(ts, name);
    assert ts[k] == front[k];
  }

  /** `getAITools()` yields one function descriptor per registered name, in
      enumeration order, carrying the tool's name and description. */
  lemma DescriptorsShape(r: RegistryState)
    requires WellFormed(r)
    ensures |Descriptors(r)| == |r.order|
    ensures forall i :: 0 <= i < |r.order| ==>
              Descriptors(r)[i].kind == FUNCTION_KIND &&
              Descriptors(r)[i].name == r.order[i] &&
              Descriptors(r)[i].description == r.tools[r.order[i]].description
  {
  }
}
