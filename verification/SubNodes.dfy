/** The sub-node table a run hands to its node bodies is the one validation counted
(backend/validation/rules.py, backend/execution/engine.py). */
module SubNodes {
  import opened Digraph
  import opened Wrappers
  import opened Graph
  import opened Rules
  import opened Validator
  import opened Interpreter
  import Connections

  lemma {:induction false} TableIsWired(edges: seq<EdgeSpec>, root: Id, slot: string)
    ensures At(SubNodeTable(edges), root, slot) == Wired(edges, root, slot)
  {
    if edges != [] {
      TableIsWired(edges[..|edges| - 1], root, slot);
    }
  }

  lemma {:induction false} WiredComesFromEdge(edges: seq<EdgeSpec>, root: Id, slot: string, sub: Id)
    requires sub in Wired(edges, root, slot)
    ensures SubNodeEdge(sub, root, slot) in edges
  {
    var front, e := edges[..|edges| - 1], edges[|edges| - 1];
    if e != SubNodeEdge(sub, root, slot) {
      WiredComesFromEdge(front, root, slot, sub);
    }
  }

  /** In a validated graph each slot a node type declares holds, in the table the engine builds, the
      number of sub-nodes it asks for, each of them a registered node of the role it asks for. */
  lemma SlotsAreFilled(g: GraphSpec, reg: Registry, d: Connections.Directory, n: NodeSpec, slot: string)
    requires UniqueIds(g) && Valid(g, reg, d) && n in g.nodes && slot in reg[n.typ].subNodeSlots
    ensures var spec, subs := reg[n.typ].subNodeSlots[slot], At(SubNodeTable(g.edges), n.id, slot);
            && (spec.cardinality == One ==> |subs| == 1)
            && (spec.cardinality == ZeroOrOne ==> |subs| <= 1)
            && forall sub | sub in subs :: RoleFilled(g, reg, spec, sub)
  {
    hide InputsCovered, TypesMatch, DataAcyclic, ConfigsOk, UniqueIds;
    TableIsWired(g.edges, n.id, slot);
    NodesByIdUnique(g, n);
    forall sub | sub in At(SubNodeTable(g.edges), n.id, slot)
      ensures RoleFilled(g, reg, reg[n.typ].subNodeSlots[slot], sub)
    {
      WiredComesFromEdge(g.edges, n.id, slot, sub);
      assert SubEdgeFits(g, reg, SubNodeEdge(sub, n.id, slot));
    }
  }

  /** The sub-node exists, is registered, and has the wanted role. */
  predicate RoleFilled(g: GraphSpec, reg: Registry, spec: SubNodeSlot, sub: Id) {
    && sub in NodesById(g.nodes) && NodesById(g.nodes)[sub].typ in reg
    && (spec.acceptsRole.None? || reg[NodesById(g.nodes)[sub].typ].subNodeRole == spec.acceptsRole)
  }

  /** A node type whose ports mirror its single trigger adapter. */
  predicate IsWebhook(def: NodeDefinition) {
    && def.body == WebhookBody && def.slotsFromSubNode == Some("trigger_adapter")
    && "trigger_adapter" in def.subNodeSlots
    && def.subNodeSlots["trigger_adapter"] == SubNodeSlot(One, Some("trigger_adapter"))
  }

  /** The adapter a validated webhook trigger runs is the one whose ports validation mirrored, and
      the count error in its body is unreachable. */
  lemma WebhookRunsItsAdapter(w: World, g: GraphSpec, d: Connections.Directory, n: NodeSpec) returns (adapter: NodeSpec)
    requires UniqueIds(g) && Valid(g, w.reg, d) && n in g.nodes && IsWebhook(w.reg[n.typ])
    ensures adapter in g.nodes && adapter.typ in w.reg && w.reg[adapter.typ].subNodeRole == Some("trigger_adapter")
    ensures OutputsForRoot(g, w.reg, w.reg[n.typ], n) == EffectiveOutputs(w.reg[adapter.typ], adapter)
    ensures adapter.id in SubNodeIds(g) && Wired(g.edges, n.id, "trigger_adapter") == [adapter.id]
    ensures var inputs := map["payload" := if n.id in w.payloads then w.payloads[n.id] else Object(map[])];
            match w.reg[adapter.typ].body
            case Primitive(run) => ExecuteWebhook(w, g, n) == run(adapter, inputs, ResourcesOf(w, g))
            case LoopBody => ExecuteWebhook(w, g, n) == ExecuteLoop(w, adapter, inputs)
            case WebhookBody => ExecuteWebhook(w, g, n).Failed?
  {
    hide Valid, UniqueIds;
    SlotsAreFilled(g, w.reg, d, n, "trigger_adapter");
    TableIsWired(g.edges, n.id, "trigger_adapter");
    var subs := At(SubNodeTable(g.edges), n.id, "trigger_adapter");
    assert subs[0] in subs;
    WiredComesFromEdge(g.edges, n.id, "trigger_adapter", subs[0]);
    assert SubNodeEdge(subs[0], n.id, "trigger_adapter").src in SubNodeIds(g);
    adapter := NodesById(g.nodes)[subs[0]];
  }
}
