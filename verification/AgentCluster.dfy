/** How an agent finds its sub-nodes (backend/nodes/agent.py), and why its own count checks never
fail on a validated graph. */
module AgentCluster {
  import opened Wrappers
  import opened Digraph
  import opened Graph
  import opened Rules
  import opened Validator
  import opened Interpreter
  import opened SubNodes
  import Connections

  datatype Lookup =
    | Found(model: Id, memory: Option<Id>, group: Option<Id>, tools: seq<Id>)
    | NotOneModel(count: nat)
    | ManyGroups(count: nat)
    | Dangling(id: Id)

  type Table = map<(Id, string), seq<Id>>

  function FirstOf(ids: seq<Id>): Option<Id> {
    if ids == [] then None else Some(ids[0])
  }

  /** The lookups at the head of `execute_agent`, in its order; an id that is no node raises. */
  method FindCluster(nodes: map<Id, NodeSpec>, table: Table, agent: Id) returns (r: Lookup)
    ensures r == ClusterOf(nodes, table, agent)
  {
    var models := At(table, agent, "model");
    if |models| != 1 {
      return NotOneModel(|models|);
    }
    if models[0] !in nodes {
      return Dangling(models[0]);
    }
    var memories := At(table, agent, "memory");
    if |memories| > 0 && memories[0] !in nodes {
      return Dangling(memories[0]);
    }
    var groups := At(table, agent, "tools");
    if |groups| > 1 {
      return ManyGroups(|groups|);
    }
    var tools := if groups == [] then [] else At(table, groups[0], "tools");
    for i := 0 to |tools|
      invariant FirstMissing(nodes, tools) == FirstMissing(nodes, tools[i..])
    {
      if tools[i] !in nodes {
        return Dangling(tools[i]);
      }
      assert tools[i..][1..] == tools[i + 1..];
    }
    r := Found(models[0], FirstOf(memories), FirstOf(groups), tools);
  }

  function FirstMissing(nodes: map<Id, NodeSpec>, ids: seq<Id>): (r: Option<Id>)
    ensures r.None? <==> forall id | id in ids :: id in nodes
  {
    if ids == [] then None else if ids[0] !in nodes then Some(ids[0]) else FirstMissing(nodes, ids[1..])
  }

  function ClusterOf(nodes: map<Id, NodeSpec>, table: Table, agent: Id): Lookup {
    var models, memories, groups := At(table, agent, "model"), At(table, agent, "memory"), At(table, agent, "tools");
    if |models| != 1 then NotOneModel(|models|)
    else if models[0] !in nodes then Dangling(models[0])
    else if memories != [] && memories[0] !in nodes then Dangling(memories[0])
    else if |groups| > 1 then ManyGroups(|groups|)
    else
      var tools := if groups == [] then [] else At(table, groups[0], "tools");
      match FirstMissing(nodes, tools)
      case Some(id) => Dangling(id)
      case None => Found(models[0], FirstOf(memories), FirstOf(groups), tools)
  }

  /** The sub-node slots an agent type and a tool group type declare. */
  predicate IsAgent(def: NodeDefinition) {
    && "model" in def.subNodeSlots && def.subNodeSlots["model"] == SubNodeSlot(One, Some("model"))
    && "memory" in def.subNodeSlots && def.subNodeSlots["memory"] == SubNodeSlot(ZeroOrOne, Some("memory"))
    && "tools" in def.subNodeSlots && def.subNodeSlots["tools"] == SubNodeSlot(ZeroOrOne, Some("tool_group"))
  }

  predicate HasRole(g: GraphSpec, reg: Registry, id: Id, role: string) {
    id in NodesById(g.nodes) && NodesById(g.nodes)[id].typ in reg
      && reg[NodesById(g.nodes)[id].typ].subNodeRole == Some(role)
  }

  /** Every sub-node edge of a structurally clean graph starts at a node. */
  lemma WiredAreNodes(g: GraphSpec, root: Id, slot: string, sub: Id)
    requires EdgesKnown(g) && sub in Wired(g.edges, root, slot)
    ensures sub in NodesById(g.nodes)
  {
    WiredComesFromEdge(g.edges, root, slot, sub);
    assert SubNodeEdge(sub, root, slot).src in IdSet(g);
  }

  /** In a validated graph every agent finds one model, at most one memory and one tool group, each
      of its role, and all tools wired to that group; none of its count or lookup errors can occur. */
  lemma ValidAgentFindsCluster(g: GraphSpec, reg: Registry, d: Connections.Directory, n: NodeSpec)
    requires UniqueIds(g) && Valid(g, reg, d) && n in g.nodes && IsAgent(reg[n.typ])
    ensures var r := ClusterOf(NodesById(g.nodes), SubNodeTable(g.edges), n.id);
            && r.Found? && Wired(g.edges, n.id, "model") == [r.model] && HasRole(g, reg, r.model, "model")
            && Wired(g.edges, n.id, "memory") == (if r.memory.Some? then [r.memory.value] else [])
            && (r.memory.Some? ==> HasRole(g, reg, r.memory.value, "memory"))
            && Wired(g.edges, n.id, "tools") == (if r.group.Some? then [r.group.value] else [])
            && (r.group.Some? ==> HasRole(g, reg, r.group.value, "tool_group"))
            && r.tools == (if r.group.Some? then Wired(g.edges, r.group.value, "tools") else [])
  {
    hide UniqueIds, Valid, Wired, SubNodeTable, NodesById, FirstMissing;
    SlotHolds(g, reg, d, n, "model");
    SlotHolds(g, reg, d, n, "memory");
    SlotHolds(g, reg, d, n, "tools");
    var groups := At(SubNodeTable(g.edges), n.id, "tools");
    if groups != [] {
      TableIsWired(g.edges, groups[0], "tools");
      forall sub | sub in Wired(g.edges, groups[0], "tools") ensures sub in NodesById(g.nodes) {
        ValidKnowsEdges(g, reg, d);
        WiredAreNodes(g, groups[0], "tools", sub);
      }
    }
  }

  lemma ValidKnowsEdges(g: GraphSpec, reg: Registry, d: Connections.Directory)
    requires Valid(g, reg, d)
    ensures EdgesKnown(g)
  {
    hide EdgesKnown;
  }

  lemma SlotHolds(g: GraphSpec, reg: Registry, d: Connections.Directory, n: NodeSpec, slot: string)
    requires UniqueIds(g) && Valid(g, reg, d) && n in g.nodes && slot in reg[n.typ].subNodeSlots
    ensures var spec, subs := reg[n.typ].subNodeSlots[slot], At(SubNodeTable(g.edges), n.id, slot);
            && subs == Wired(g.edges, n.id, slot)
            && (spec.cardinality == One ==> |subs| == 1)
            && (spec.cardinality == ZeroOrOne ==> |subs| <= 1)
            && (subs != [] ==> RoleFilled(g, reg, spec, subs[0]))
  {
    SlotsAreFilled(g, reg, d, n, slot);
    TableIsWired(g.edges, n.id, slot);
  }
}
