/** What the node bodies of a run are called with (backend/execution/engine.py:20-68 and 287-295,
backend/nodes/loop.py, backend/nodes/webhook_trigger.py), told apart from the interpreter that calls
them. */
module Bodies {
  import opened Wrappers
  import opened Digraph
  import opened Graph
  import opened Schedule
  import opened Rules
  import opened Interpreter
  import opened SubNodes
  import Validator
  import Connections
  import Loops

  // ----- The lookup tables of a run -----

  /** subs are the sources of the sub-node edges into this slot of this root, in edge order. */
  ghost predicate WiredInto(edges: seq<EdgeSpec>, root: Id, slot: string, subs: seq<Id>) {
    exists at: seq<nat> :: PicksEdges(edges, root, slot, subs, at)
  }

  ghost predicate PicksEdges(edges: seq<EdgeSpec>, root: Id, slot: string, subs: seq<Id>, at: seq<nat>) {
    && |at| == |subs|
    && (forall i | 0 <= i < |at| :: at[i] < |edges| && edges[at[i]] == SubNodeEdge(subs[i], root, slot))
    && (forall i, j | 0 <= i < j < |at| :: at[i] < at[j])
    && forall k | 0 <= k < |edges| && edges[k].SubNodeEdge? && edges[k].dst == root && edges[k].slot == slot :: k in at
  }

  lemma {:induction false} WiredPicks(edges: seq<EdgeSpec>, root: Id, slot: string) returns (at: seq<nat>)
    ensures PicksEdges(edges, root, slot, Wired(edges, root, slot), at)
  {
    if edges == [] {
      at := [];
    } else {
      var front, e := edges[..|edges| - 1], edges[|edges| - 1];
      var before := WiredPicks(front, root, slot);
      if e.SubNodeEdge? && e.dst == root && e.slot == slot {
        at := before + [|edges| - 1];
        PicksOneMore(front, e, root, slot, Wired(front, root, slot), before);
      } else {
        at := before;
        PicksNoMore(front, e, root, slot, Wired(front, root, slot), before);
      }
      assert edges == front + [e];
    }
  }

  lemma PicksOneMore(edges: seq<EdgeSpec>, e: EdgeSpec, root: Id, slot: string, subs: seq<Id>, at: seq<nat>)
    requires PicksEdges(edges, root, slot, subs, at) && e.SubNodeEdge? && e.dst == root && e.slot == slot
    ensures PicksEdges(edges + [e], root, slot, subs + [e.src], at + [|edges|])
  {
    var more := at + [|edges|];
    forall k | 0 <= k < |edges + [e]| && (edges + [e])[k].SubNodeEdge? && (edges + [e])[k].dst == root
            && (edges + [e])[k].slot == slot
      ensures k in more
    {
      if k < |edges| {
        assert k in at;
      } else {
        assert more[|at|] == k;
      }
    }
  }

  lemma PicksNoMore(edges: seq<EdgeSpec>, e: EdgeSpec, root: Id, slot: string, subs: seq<Id>, at: seq<nat>)
    requires PicksEdges(edges, root, slot, subs, at) && !(e.SubNodeEdge? && e.dst == root && e.slot == slot)
    ensures PicksEdges(edges + [e], root, slot, subs, at)
  {
  }

  /** The tables a run hands to its bodies: its own nodes by id, its own sub-nodes by root and slot
      (no entry where there are none), and the posted payloads. */
  ghost predicate Tables(w: World, g: GraphSpec, res: Resources) {
    && (forall id :: id in res.nodesById <==> exists n :: n in g.nodes && n.id == id)
    && (forall id | id in res.nodesById :: res.nodesById[id] in g.nodes && res.nodesById[id].id == id)
    && (forall root, slot :: (root, slot) in res.subNodes <==>
          exists e :: e in g.edges && e.SubNodeEdge? && e.dst == root && e.slot == slot)
    && (forall root, slot | (root, slot) in res.subNodes :: WiredInto(g.edges, root, slot, res.subNodes[(root, slot)]))
    && res.payloads == w.payloads
  }

  lemma {:induction false} TableKeys(edges: seq<EdgeSpec>, root: Id, slot: string)
    ensures (root, slot) in SubNodeTable(edges) <==>
              exists e :: e in edges && e.SubNodeEdge? && e.dst == root && e.slot == slot
  {
    if edges != [] {
      var front, e := edges[..|edges| - 1], edges[|edges| - 1];
      assert edges == front + [e];
      TableKeys(front, root, slot);
    }
  }

  lemma ResourcesAreTables(w: World, g: GraphSpec)
    ensures Tables(w, g, ResourcesOf(w, g))
  {
    hide SubNodeTable, WiredInto;
    var res := ResourcesOf(w, g);
    NodesAreTable(g, res.nodesById);
    forall root, slot
      ensures (root, slot) in res.subNodes <==>
                exists e :: e in g.edges && e.SubNodeEdge? && e.dst == root && e.slot == slot
    {
      TableKeys(g.edges, root, slot);
    }
    forall root, slot | (root, slot) in res.subNodes
      ensures WiredInto(g.edges, root, slot, res.subNodes[(root, slot)])
    {
      TableIsWired(g.edges, root, slot);
      WiredIsWired(g.edges, root, slot);
    }
  }

  lemma NodesAreTable(g: GraphSpec, nodesById: map<Id, NodeSpec>)
    requires nodesById == NodesById(g.nodes)
    ensures forall id :: id in nodesById <==> exists n :: n in g.nodes && n.id == id
    ensures forall id | id in nodesById :: nodesById[id] in g.nodes && nodesById[id].id == id
  {
    hide NodesById;
  }

  lemma WiredIsWired(edges: seq<EdgeSpec>, root: Id, slot: string)
    ensures WiredInto(edges, root, slot, Wired(edges, root, slot))
  {
    hide PicksEdges, Wired;
    var at := WiredPicks(edges, root, slot);
  }

  // ----- Ports -----

  /** The schema a definition gives a node: fixed, or resolved for it. */
  predicate HasSchema(d: NodeDefinition, n: NodeSpec, schema: Schema) {
    match d.resolveSlots
    case None => schema == (d.inputs, d.outputs)
    case Some(resolve) => resolve(n) == Some(schema)
  }

  lemma SchemaIsEffective(d: NodeDefinition, n: NodeSpec)
    ensures forall inputs, outputs ::
              HasSchema(d, n, (inputs, outputs)) <==>
                EffectiveInputs(d, n) == Some(inputs) && EffectiveOutputs(d, n) == Some(outputs)
    ensures EffectiveInputs(d, n).Some? <==> EffectiveOutputs(d, n).Some?
  {
    if d.resolveSlots.Some? && d.resolveSlots.value(n).Some? {
      var schema := d.resolveSlots.value(n).value;
      assert schema == (schema.0, schema.1);
    }
  }

  /** The ports of a node in validation: its own outputs; or, for a type that mirrors a sub-node slot,
      those of the first sub-node wired into it, and none if there is none to mirror. */
  ghost predicate PortsOf(g: GraphSpec, reg: Registry, n: NodeSpec, ports: seq<OutputSlot>)
    requires n.typ in reg
  {
    match reg[n.typ].slotsFromSubNode
    case None => exists inputs :: HasSchema(reg[n.typ], n, (inputs, ports))
    case Some(slot) =>
      exists subs :: WiredInto(g.edges, n.id, slot, subs)
        && if subs == [] then ports == [] else Mirrors(g, reg, subs[0], ports)
  }

  ghost predicate Mirrors(g: GraphSpec, reg: Registry, sub: Id, ports: seq<OutputSlot>) {
    && ((forall m | m in g.nodes && m.id == sub :: m.typ !in reg) ==> ports == [])
    && forall m | m in g.nodes && m.id == sub && m.typ in reg :: exists inputs ::
         HasSchema(reg[m.typ], m, (inputs, ports))
  }

  lemma PortsAreOf(g: GraphSpec, reg: Registry, n: NodeSpec)
    requires UniqueIds(g) && n.typ in reg && OutputsForRoot(g, reg, reg[n.typ], n).Some?
    ensures PortsOf(g, reg, n, OutputsForRoot(g, reg, reg[n.typ], n).value)
  {
    hide UniqueIds, HasSchema, WiredInto, Wired, EffectiveInputs, EffectiveOutputs;
    var ports := OutputsForRoot(g, reg, reg[n.typ], n).value;
    match reg[n.typ].slotsFromSubNode
    case None => OwnPorts(reg[n.typ], n, ports);
    case Some(slot) =>
      WiredIsWired(g.edges, n.id, slot);
      var subs := Wired(g.edges, n.id, slot);
      if subs != [] {
        MirroredPorts(g, reg, subs[0], ports);
      }
  }

  lemma OwnPorts(d: NodeDefinition, n: NodeSpec, ports: seq<OutputSlot>)
    requires EffectiveOutputs(d, n) == Some(ports)
    ensures exists inputs :: HasSchema(d, n, (inputs, ports))
  {
    hide HasSchema, EffectiveInputs, EffectiveOutputs;
    SchemaIsEffective(d, n);
    assert HasSchema(d, n, (EffectiveInputs(d, n).value, ports));
  }

  lemma MirroredPorts(g: GraphSpec, reg: Registry, sub: Id, ports: seq<OutputSlot>)
    requires UniqueIds(g)
    requires Some(ports) ==
               if sub !in NodesById(g.nodes) || NodesById(g.nodes)[sub].typ !in reg then Some([])
               else EffectiveOutputs(reg[NodesById(g.nodes)[sub].typ], NodesById(g.nodes)[sub])
    ensures Mirrors(g, reg, sub, ports)
  {
    hide UniqueIds, HasSchema, EffectiveOutputs;
    forall m | m in g.nodes && m.id == sub ensures NodesById(g.nodes)[sub] == m {
      NodesByIdUnique(g, m);
    }
    forall m | m in g.nodes && m.id == sub && m.typ in reg
      ensures exists inputs :: HasSchema(reg[m.typ], m, (inputs, ports))
    {
      OwnPorts(reg[m.typ], m, ports);
    }
  }

  // ----- What each body does -----

  /** Called for node n with these inputs, its registered body does o: a primitive body is run on
      exactly these inputs and the run's tables; a loop iterates from its input `value`; a trigger
      runs the one adapter wired to it on the payload posted to it. */
  ghost predicate BodyDoes(w: World, g: GraphSpec, n: NodeSpec, inputs: Inputs, o: Outcome) {
    if n.typ !in w.reg then o.Failed?
    else
      match w.reg[n.typ].body
      case Primitive(run) => PrimitiveDoes(w, g, run, n, inputs, o)
      case LoopBody => LoopDoes(w, n, inputs, o)
      case WebhookBody => TriggerDoes(w, g, n, o)
  }

  ghost predicate PrimitiveDoes(w: World, g: GraphSpec, run: (NodeSpec, Inputs, Resources) -> Outcome, n: NodeSpec,
                                inputs: Inputs, o: Outcome) {
    exists res :: Tables(w, g, res) && o == run(n, inputs, res)
  }

  ghost predicate LoopStarts(w: World, n: NodeSpec, inputs: Inputs, cfg: LoopConfig, entry: Id) {
    && Loops.Configures(n.config, cfg) && Loops.IsEntry(cfg.graph.nodes, entry) && "value" in inputs
    && Validator.Valid(cfg.graph, w.reg, Connections.Directory(w.store, None, map[]))
  }

  /** A loop fails unless its config names a valid sub-graph with one entry and it has a value;
      otherwise it is the iterate of that sub-graph from that value. */
  ghost predicate LoopDoes(w: World, n: NodeSpec, inputs: Inputs, o: Outcome) {
    && ((forall cfg, entry :: !LoopStarts(w, n, inputs, cfg, entry)) ==> o.Failed?)
    && forall cfg, entry | LoopStarts(w, n, inputs, cfg, entry) ::
         exists k :: Loops.StopsAfter(w, cfg, entry, inputs["value"], k, o)
  }

  ghost predicate TriggerDoes(w: World, g: GraphSpec, n: NodeSpec, o: Outcome) {
    && ((forall adapter :: !IsAdapter(w, g, n, adapter)) ==> o.Failed?)
    && forall adapter | IsAdapter(w, g, n, adapter) ::
         var payload := map["payload" := if n.id in w.payloads then w.payloads[n.id] else Object(map[])];
         match w.reg[adapter.typ].body
         case Primitive(run) => PrimitiveDoes(w, g, run, adapter, payload, o)
         case LoopBody => LoopDoes(w, adapter, payload, o)
         case WebhookBody => o.Failed?
  }

  /** The registered node that alone is wired into the trigger's adapter slot. */
  ghost predicate IsAdapter(w: World, g: GraphSpec, n: NodeSpec, adapter: NodeSpec) {
    && adapter in g.nodes && adapter.typ in w.reg
    && WiredInto(g.edges, n.id, "trigger_adapter", [adapter.id])
  }

  lemma PrimitiveRuns(w: World, g: GraphSpec, run: (NodeSpec, Inputs, Resources) -> Outcome, n: NodeSpec,
                      inputs: Inputs)
    ensures PrimitiveDoes(w, g, run, n, inputs, run(n, inputs, ResourcesOf(w, g)))
  {
    hide Tables;
    ResourcesAreTables(w, g);
  }

  lemma LoopRuns(w: World, n: NodeSpec, inputs: Inputs)
    ensures LoopDoes(w, n, inputs, ExecuteLoop(w, n, inputs))
  {
    hide Loops.Configures, Loops.IsEntry, Loops.StopsAfter, Validator.Valid, ExecuteLoop;
    var o := ExecuteLoop(w, n, inputs);
    if forall cfg, entry :: !LoopStarts(w, n, inputs, cfg, entry) {
      NeverStarts(w, n, inputs);
    }
    forall cfg, entry | LoopStarts(w, n, inputs, cfg, entry)
      ensures exists k :: Loops.StopsAfter(w, cfg, entry, inputs["value"], k, o)
    {
      var k := Loops.LoopIsIterate(w, n, inputs, cfg, entry);
    }
  }

  lemma NeverStarts(w: World, n: NodeSpec, inputs: Inputs)
    requires forall cfg, entry :: !LoopStarts(w, n, inputs, cfg, entry)
    ensures ExecuteLoop(w, n, inputs).Failed?
  {
    hide Loops.Configures, Loops.IsEntry, Validator.Valid, ExecuteLoop;
    if "value" in inputs {
      forall cfg, entry
        ensures !(Loops.Configures(n.config, cfg) && Loops.IsEntry(cfg.graph.nodes, entry)
                  && Validator.Valid(cfg.graph, w.reg, Connections.Directory(w.store, None, map[])))
      {
        assert !LoopStarts(w, n, inputs, cfg, entry);
      }
    }
    Loops.LoopRefuses(w, n, inputs);
  }

  /** Two readings of the same wiring agree. */
  lemma WiredOnce(edges: seq<EdgeSpec>, root: Id, slot: string, sub: Id)
    ensures WiredInto(edges, root, slot, [sub]) <==> Wired(edges, root, slot) == [sub]
  {
    hide Wired;
    WiredIsWired(edges, root, slot);
    if WiredInto(edges, root, slot, [sub]) {
      SameWiring(edges, root, slot, [sub], Wired(edges, root, slot));
    }
  }

  lemma SameWiring(edges: seq<EdgeSpec>, root: Id, slot: string, a: seq<Id>, b: seq<Id>)
    requires WiredInto(edges, root, slot, a) && |a| == 1 && WiredInto(edges, root, slot, b)
    ensures a == b
  {
    var at :| PicksEdges(edges, root, slot, a, at);
    var bt :| PicksEdges(edges, root, slot, b, bt);
    PickedOnce(edges, root, slot, a, at, b, bt);
  }

  lemma PickedOnce(edges: seq<EdgeSpec>, root: Id, slot: string, a: seq<Id>, at: seq<nat>, b: seq<Id>, bt: seq<nat>)
    requires PicksEdges(edges, root, slot, a, at) && |a| == 1 && PicksEdges(edges, root, slot, b, bt)
    ensures a == b
  {
    var x := at[0];
    assert edges[x] == SubNodeEdge(a[0], root, slot);
    assert x in bt;
    forall i | 0 <= i < |bt| ensures bt[i] == x {
      assert edges[bt[i]] == SubNodeEdge(b[i], root, slot);
      assert bt[i] in at;
    }
    OnlyOne(bt, x);
    assert edges[bt[0]] == SubNodeEdge(b[0], root, slot);
  }

  lemma OnlyOne(s: seq<nat>, x: nat)
    requires x in s && (forall i | 0 <= i < |s| :: s[i] == x) && forall i, j | 0 <= i < j < |s| :: s[i] < s[j]
    ensures |s| == 1
  {
    if |s| > 1 {
      SecondIsLater(s);
      assert false;
    }
  }

  lemma SecondIsLater(s: seq<nat>)
    requires |s| > 1 && forall i, j | 0 <= i < j < |s| :: s[i] < s[j]
    ensures s[0] < s[1]
  {
  }

  lemma TriggerRuns(w: World, g: GraphSpec, n: NodeSpec)
    requires UniqueIds(g)
    ensures TriggerDoes(w, g, n, ExecuteWebhook(w, g, n))
  {
    hide ExecuteLoop, LoopDoes, PrimitiveDoes, WiredInto, Wired, SubNodeTable, UniqueIds, NodesById;
    var subs := At(SubNodeTable(g.edges), n.id, "trigger_adapter");
    TableIsWired(g.edges, n.id, "trigger_adapter");
    forall adapter | IsAdapter(w, g, n, adapter)
      ensures subs == [adapter.id] && NodesById(g.nodes)[adapter.id] == adapter
    {
      WiredOnce(g.edges, n.id, "trigger_adapter", adapter.id);
      NodesByIdUnique(g, adapter);
    }
    if |subs| == 1 && subs[0] in NodesById(g.nodes) && NodesById(g.nodes)[subs[0]].typ in w.reg {
      var adapter := NodesById(g.nodes)[subs[0]];
      assert subs == [adapter.id];
      WiredOnce(g.edges, n.id, "trigger_adapter", adapter.id);
      assert IsAdapter(w, g, n, adapter);
      var payload := map["payload" := if n.id in w.payloads then w.payloads[n.id] else Object(map[])];
      match w.reg[adapter.typ].body
      case Primitive(run) => PrimitiveRuns(w, g, run, adapter, payload);
      case LoopBody => LoopRuns(w, adapter, payload);
      case WebhookBody =>
    }
  }

  /** The interpreter runs every node's registered body on the inputs it is called with. */
  lemma NodeRuns(w: World, g: GraphSpec, n: NodeSpec, inputs: Inputs)
    requires UniqueIds(g) && n in g.nodes
    ensures BodyDoes(w, g, n, inputs, ExecuteNode(w, g, n, inputs))
  {
    hide ExecuteLoop, ExecuteWebhook, LoopDoes, PrimitiveDoes, TriggerDoes, UniqueIds;
    if n.typ in w.reg {
      match w.reg[n.typ].body
      case Primitive(run) => PrimitiveRuns(w, g, run, n, inputs);
      case LoopBody => LoopRuns(w, n, inputs);
      case WebhookBody => TriggerRuns(w, g, n);
    }
  }

  /** exec runs the registered bodies of the graph's nodes. */
  ghost predicate RunsBodies(w: World, g: GraphSpec, exec: Exec) {
    forall n, inputs {:trigger exec(n.id, inputs)} | n in g.nodes :: BodyDoes(w, g, n, inputs, exec(n.id, inputs))
  }

  lemma NodeExecRunsBodies(w: World, g: GraphSpec)
    requires UniqueIds(g)
    ensures RunsBodies(w, g, NodeExec(w, g))
  {
    hide ExecuteNode, BodyDoes, UniqueIds;
    forall n, inputs | n in g.nodes ensures BodyDoes(w, g, n, inputs, NodeExec(w, g)(n.id, inputs)) {
      NodesByIdUnique(g, n);
      NodeRuns(w, g, n, inputs);
    }
  }
}
