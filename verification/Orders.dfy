/** The exact condition on an accepted graph's edges and node list under which `run_graph` computes
its meaning (backend/execution/engine.py:171-210), over all registries that differ only in which
slots are required and in what the bodies do. */
module Orders {
  import opened Wrappers
  import opened Digraph
  import opened Graph
  import opened Schedule
  import opened Denotation
  import opened Soundness
  import opened Refinement
  import opened Rules
  import opened Validator
  import opened Interpreter
  import opened Validated
  import Connections

  // ----- Registries of the same shape -----

  /** The same slots up to which are required. */
  predicate SlotsAlike(a: seq<InputSlot>, b: seq<InputSlot>) {
    |a| == |b| && forall i | 0 <= i < |a| :: b[i] == a[i].(required := b[i].required)
  }

  predicate SchemasAlike(a: NodeDefinition, b: NodeDefinition, n: NodeSpec) {
    && EffectiveOutputs(b, n) == EffectiveOutputs(a, n)
    && (EffectiveInputs(b, n).Some? <==> EffectiveInputs(a, n).Some?)
    && (EffectiveInputs(a, n).Some? ==> SlotsAlike(EffectiveInputs(a, n).value, EffectiveInputs(b, n).value))
  }

  /** Two definitions that differ at most in required flags and bodies. */
  ghost predicate DefinitionsAlike(a: NodeDefinition, b: NodeDefinition) {
    && b.configOk == a.configOk && b.resultSlot == a.resultSlot && b.subNodeSlots == a.subNodeSlots
    && b.subNodeRole == a.subNodeRole && b.slotsFromSubNode == a.slotsFromSubNode
    && forall n :: SchemasAlike(a, b, n)
  }

  ghost predicate Alike(a: Registry, b: Registry) {
    b.Keys == a.Keys && forall t | t in a :: DefinitionsAlike(a[t], b[t])
  }

  lemma AlikeSlots(a: Registry, b: Registry, n: NodeSpec)
    requires Alike(a, b)
    ensures SlotsAlike(InputsOrNone(a, n), InputsOrNone(b, n))
  {
    if n.typ in a {
      assert DefinitionsAlike(a[n.typ], b[n.typ]);
      assert SchemasAlike(a[n.typ], b[n.typ], n);
    }
  }

  lemma AlikePlans(g: GraphSpec, a: Registry, b: Registry)
    requires Alike(a, b)
    ensures SameShape(PlanOf(g, a), PlanOf(g, b))
  {
    hide Alike, InputsOrNone, Incoming, NodesById;
    var p, q := PlanOf(g, a), PlanOf(g, b);
    forall id ensures SlotsAlike(p.Slots(id), q.Slots(id)) {
      if id in NodesById(g.nodes) {
        AlikeSlots(a, b, NodesById(g.nodes)[id]);
      }
    }
  }

  /** Whichever slots are required and whatever the bodies do, if the graph is accepted then its run
      records exactly what the graph means. */
  ghost predicate AlwaysRight(w: World, g: GraphSpec, rank: Rank) {
    forall reg | Alike(w.reg, reg) && Accepts(w.(reg := reg), g) :: RunIsRight(w.(reg := reg), g, rank)
  }

  ghost predicate RunIsRight(w: World, g: GraphSpec, rank: Rank) {
    Ranks(PlanOf(g, w.reg), rank)
      && ComputesMeaning(PlanOf(g, w.reg), NodeExec(w, g), rank, Trace(w, g, NodeExec(w, g)))
  }

  // ----- A registry that loses a node -----

  /** Every body fails, and exactly the edge-fed slots are required, but none on x. */
  function Reflagged(d: NodeDefinition, p: Plan, x: Id): NodeDefinition {
    d.(body := Primitive((_, _, _) => Failed("")), resolveSlots := Some(n => ReflaggedSchema(d, p, x, n)))
  }

  function ReflaggedSchema(d: NodeDefinition, p: Plan, x: Id, n: NodeSpec): Option<Schema> {
    match (EffectiveInputs(d, n), EffectiveOutputs(d, n))
    case (Some(inputs), Some(outputs)) => Some((ReflagSlots(p, x, n.id, inputs), outputs))
    case _ => None
  }

  function ReflaggedRegistry(reg: Registry, p: Plan, x: Id): Registry {
    map t | t in reg :: Reflagged(reg[t], p, x)
  }

  lemma ReflaggedSchemas(d: NodeDefinition, p: Plan, x: Id, n: NodeSpec)
    ensures SchemasAlike(d, Reflagged(d, p, x), n)
    ensures EffectiveInputs(d, n).Some? ==>
              EffectiveInputs(Reflagged(d, p, x), n) == Some(ReflagSlots(p, x, n.id, EffectiveInputs(d, n).value))
  {
  }

  lemma ReflaggedIsAlike(reg: Registry, p: Plan, x: Id)
    ensures Alike(reg, ReflaggedRegistry(reg, p, x))
  {
    hide SchemasAlike, Reflagged;
    var other := ReflaggedRegistry(reg, p, x);
    forall t | t in reg ensures DefinitionsAlike(reg[t], other[t]) {
      ReflaggedDefinition(reg[t], p, x);
    }
  }

  lemma ReflaggedDefinition(d: NodeDefinition, p: Plan, x: Id)
    ensures DefinitionsAlike(d, Reflagged(d, p, x))
  {
    forall n ensures SchemasAlike(d, Reflagged(d, p, x), n) {
      ReflaggedSchemas(d, p, x, n);
    }
  }

  lemma ReflaggedInputs(reg: Registry, p: Plan, x: Id, n: NodeSpec)
    ensures InputsOrNone(ReflaggedRegistry(reg, p, x), n) == ReflagSlots(p, x, n.id, InputsOrNone(reg, n))
  {
    if n.typ in reg {
      ReflaggedSchemas(reg[n.typ], p, x, n);
    }
  }

  lemma ReflaggedPlan(g: GraphSpec, reg: Registry, x: Id)
    ensures PlanOf(g, ReflaggedRegistry(reg, PlanOf(g, reg), x)) == Reflag(PlanOf(g, reg), x)
  {
    hide InputsOrNone, ReflaggedRegistry, Incoming, ReflagSlots;
    var p := PlanOf(g, reg);
    var q := PlanOf(g, ReflaggedRegistry(reg, p, x));
    forall id | id in NodesById(g.nodes) ensures q.slots[id] == ReflagSlots(p, x, id, p.slots[id]) {
      ReflaggedInputs(reg, p, x, NodesById(g.nodes)[id]);
    }
    assert q.slots == Reflag(p, x).slots;
  }

  // ----- It still accepts the graph -----

  lemma ReflaggedCovers(g: GraphSpec, reg: Registry, p: Plan, x: Id)
    requires TypesRegistered(g, reg) && p.incoming == Incoming(g.edges)
    ensures TypesRegistered(g, ReflaggedRegistry(reg, p, x)) && InputsCovered(g, ReflaggedRegistry(reg, p, x))
  {
    hide HasEdgeInto, EffectiveInputs, Reflagged, Incoming;
    var other := ReflaggedRegistry(reg, p, x);
    forall n, s | n in g.nodes && EffectiveInputs(other[n.typ], n).Some? && s in EffectiveInputs(other[n.typ], n).value
           && s.required
      ensures HasEdgeInto(g, n.id, s.name)
    {
      ReflaggedSchemas(reg[n.typ], p, x, n);
      var i :| 0 <= i < |EffectiveInputs(other[n.typ], n).value| && EffectiveInputs(other[n.typ], n).value[i] == s;
      assert (n.id, s.name) in Incoming(g.edges);
      IncomingIsInto(g, n.id, s.name);
    }
  }

  lemma IncomingIsInto(g: GraphSpec, n: Id, slot: Slot)
    requires (n, slot) in Incoming(g.edges)
    ensures HasEdgeInto(g, n, slot)
  {
    var e := IncomingIsEdge(g.edges, (n, slot));
  }

  lemma AlikePorts(g: GraphSpec, a: Registry, b: Registry, n: NodeSpec)
    requires Alike(a, b) && n.typ in a
    ensures OutputsForRoot(g, b, b[n.typ], n) == OutputsForRoot(g, a, a[n.typ], n)
  {
    hide Wired, NodesById, EffectiveOutputs, EffectiveInputs, SlotsAlike;
    assert DefinitionsAlike(a[n.typ], b[n.typ]);
    assert SchemasAlike(a[n.typ], b[n.typ], n);
    if a[n.typ].slotsFromSubNode.Some? {
      var subs := Wired(g.edges, n.id, a[n.typ].slotsFromSubNode.value);
      if subs != [] && subs[0] in NodesById(g.nodes) && NodesById(g.nodes)[subs[0]].typ in a {
        var sub := NodesById(g.nodes)[subs[0]];
        assert DefinitionsAlike(a[sub.typ], b[sub.typ]);
        assert SchemasAlike(a[sub.typ], b[sub.typ], sub);
      }
    }
  }

  lemma AlikeNames(a: seq<InputSlot>, b: seq<InputSlot>, name: Slot, s: InputSlot) returns (t: InputSlot)
    requires SlotsAlike(a, b) && NamesInput(a, name, s)
    ensures NamesInput(b, name, t) && t.typ == s.typ
  {
    var i :| 0 <= i < |a| && a[i] == s && s.name == name && forall j | 0 <= j < i :: a[j].name != name;
    t := b[i];
    assert forall j | 0 <= j < i :: b[j].name == a[j].name;
  }

  lemma AlikeAgree(e: EdgeSpec, outputs: seq<OutputSlot>, a: seq<InputSlot>, b: seq<InputSlot>)
    requires e.DataEdge? && SlotsAlike(a, b) && SlotsAgree(e, outputs, a)
    ensures SlotsAgree(e, outputs, b)
  {
    hide SlotsAlike, NamesInput, NamesOutput;
    var o, s :| NamesOutput(outputs, e.srcSlot, o) && NamesInput(a, e.dstSlot, s) && o.typ == s.typ;
    var t := AlikeNames(a, b, e.dstSlot, s);
  }

  lemma AlikeTypes(g: GraphSpec, a: Registry, b: Registry)
    requires Alike(a, b) && TypesRegistered(g, a) && TypesMatch(g, a)
    ensures TypesRegistered(g, b) && TypesMatch(g, b)
  {
    hide SlotsAgree, OutputsForRoot, EffectiveInputs, EffectiveOutputs, SlotsAlike;
    forall e, src, dst | e in g.edges && e.DataEdge? && src in g.nodes && dst in g.nodes && src.id == e.src
           && dst.id == e.dst
                      && OutputsForRoot(g, b, b[src.typ], src).Some? && EffectiveInputs(b[dst.typ], dst).Some?
      ensures SlotsAgree(e, OutputsForRoot(g, b, b[src.typ], src).value, EffectiveInputs(b[dst.typ], dst).value)
    {
      AlikePorts(g, a, b, src);
      assert DefinitionsAlike(a[dst.typ], b[dst.typ]);
      assert SchemasAlike(a[dst.typ], b[dst.typ], dst);
      AlikeAgree(e, OutputsForRoot(g, a, a[src.typ], src).value, EffectiveInputs(a[dst.typ], dst).value,
                 EffectiveInputs(b[dst.typ], dst).value);
    }
  }

  lemma AlikeRest(g: GraphSpec, a: Registry, b: Registry)
    requires Alike(a, b) && TypesRegistered(g, a) && ConfigsOk(g, a) && SubNodesOk(g, a)
    ensures TypesRegistered(g, b) && ConfigsOk(g, b) && SubNodesOk(g, b)
  {
    hide SchemasAlike, Wired, CardinalityOk;
    forall n | n in g.nodes ensures b[n.typ].configOk(n.config) && b[n.typ].subNodeSlots == a[n.typ].subNodeSlots {
      assert DefinitionsAlike(a[n.typ], b[n.typ]);
    }
    forall e | e in g.edges && e.SubNodeEdge? ensures SubEdgeFits(g, b, e) {
      assert SubEdgeFits(g, a, e);
      forall n | n in g.nodes ensures b[n.typ].subNodeRole == a[n.typ].subNodeRole {
        assert DefinitionsAlike(a[n.typ], b[n.typ]);
      }
    }
  }

  lemma ReflaggedAccepts(w: World, g: GraphSpec, x: Id)
    requires Accepts(w, g)
    ensures Accepts(w.(reg := ReflaggedRegistry(w.reg, PlanOf(g, w.reg), x)), g)
  {
    hide EdgesKnown, TypesRegistered, InputsCovered, TypesMatch, DataAcyclic, ConfigsOk, SubNodesOk, ReflaggedRegistry,
      Alike, PlanOf, Connections.Names, Connections.Answered, UniqueIds;
    var p := PlanOf(g, w.reg);
    var other := ReflaggedRegistry(w.reg, p, x);
    PlanIncoming(g, w.reg);
    ReflaggedIsAlike(w.reg, p, x);
    ReflaggedCovers(g, w.reg, p, x);
    AlikeTypes(g, w.reg, other);
    AlikeRest(g, w.reg, other);
  }

  lemma ReflaggedIsBarren(w: World, g: GraphSpec, p: Plan, x: Id)
    ensures Barren(NodeExec(w.(reg := ReflaggedRegistry(w.reg, p, x)), g))
  {
    hide NodesById, ReflaggedSchema;
  }

  // ----- The theorem -----

  lemma SafeIsRight(w: World, g: GraphSpec, rank: Rank, reg: Registry)
    requires Ranks(PlanOf(g, w.reg), rank) && OrderSafe(PlanOf(g, w.reg))
    requires Alike(w.reg, reg) && Accepts(w.(reg := reg), g)
    ensures RunIsRight(w.(reg := reg), g, rank)
  {
    hide PlanOf, Alike, Valid, UniqueIds, OrderSafe, NodeExec, ComputesMeaning, SameShape, Covered, Distinct, Run;
    var p, q := PlanOf(g, w.reg), PlanOf(g, reg);
    AlikePlans(g, w.reg, reg);
    ShapeKeepsRanks(p, q, rank);
    SafetyIsShape(p, q);
    QueueDistinct(g, reg);
    ValidCovers(g, reg, w.Directory(w.user));
    SafeOrderComputesMeaning(q, NodeExec(w.(reg := reg), g), rank);
  }

  lemma UnsafeIsWrong(w: World, g: GraphSpec, rank: Rank, n: Id, s: InputSlot) returns (reg: Registry)
    requires Accepts(w, g) && Ranks(PlanOf(g, w.reg), rank)
    requires var p := PlanOf(g, w.reg);
             n in p.queue && s in p.Slots(n) && (n, s.name) in p.incoming && !EdgeSafe(p, n, s)
    ensures Alike(w.reg, reg) && Accepts(w.(reg := reg), g) && !RunIsRight(w.(reg := reg), g, rank)
  {
    hide PlanOf, Alike, Valid, UniqueIds, EdgeSafe, NodeExec, ComputesMeaning, Reflag, ReflaggedRegistry, Barren,
      Distinct, Run;
    var p := PlanOf(g, w.reg);
    reg := ReflaggedRegistry(w.reg, p, n);
    ReflaggedIsAlike(w.reg, p, n);
    ReflaggedAccepts(w, g, n);
    ReflaggedPlan(g, w.reg, n);
    ReflaggedIsBarren(w, g, p, n);
    QueueDistinct(g, w.reg);
    UnsafeEdgeLoses(p, NodeExec(w.(reg := reg), g), rank, n, s);
  }

  /** For every accepted graph: its edges and node list are safe if and only if `run_graph` executes
      exactly what the graph means under every registry that also accepts it and differs only in which
      slots are required and in what the bodies do. */
  lemma SafeOrderIsExactForGraphs(w: World, g: GraphSpec, rank: Rank)
    requires Accepts(w, g) && Ranks(PlanOf(g, w.reg), rank)
    ensures OrderSafe(PlanOf(g, w.reg)) <==> AlwaysRight(w, g, rank)
  {
    hide PlanOf, Alike, Valid, UniqueIds, EdgeSafe, RunIsRight;
    if OrderSafe(PlanOf(g, w.reg)) {
      forall reg | Alike(w.reg, reg) && Accepts(w.(reg := reg), g) ensures RunIsRight(w.(reg := reg), g, rank) {
        SafeIsRight(w, g, rank, reg);
      }
    } else {
      var p := PlanOf(g, w.reg);
      var n, s :| n in p.queue && s in p.Slots(n) && (n, s.name) in p.incoming && !EdgeSafe(p, n, s);
      var reg := UnsafeIsWrong(w, g, rank, n, s);
    }
  }
}
