/** `validate_graph` (backend/validation/validator.py): the aggregated rules accept exactly the
well-formed graphs. */
module Validator {
  import opened Digraph
  import opened Wrappers
  import opened Graph
  import opened Rules
  import Connections

  /** Both ends of every edge are nodes of the graph. */
  ghost predicate EdgesKnown(g: GraphSpec) {
    forall e | e in g.edges :: e.src in IdSet(g) && e.dst in IdSet(g)
  }

  ghost predicate TypesRegistered(g: GraphSpec, reg: Registry) {
    forall n | n in g.nodes :: n.typ in reg
  }

  ghost predicate HasEdgeInto(g: GraphSpec, n: Id, slot: Slot) {
    exists e :: e in g.edges && e.DataEdge? && e.dst == n && e.dstSlot == slot
  }

  /** A node with a sub-node edge leaving it is never scheduled. */
  ghost predicate IsSubNode(g: GraphSpec, n: Id) {
    exists e :: e in g.edges && e.SubNodeEdge? && e.src == n
  }

  /** Every required slot of a node that is no sub-node has a literal or a data edge. */
  ghost predicate InputsCovered(g: GraphSpec, reg: Registry)
    requires TypesRegistered(g, reg)
  {
    forall n, s | n in g.nodes && !IsSubNode(g, n.id) && EffectiveInputs(reg[n.typ], n).Some?
                && s in EffectiveInputs(reg[n.typ], n).value && s.required ::
      s.name in n.inputValues || HasEdgeInto(g, n.id, s.name)
  }

  /** The data edge joins an output slot and an input slot of one type. */
  ghost predicate SlotsAgree(e: EdgeSpec, outputs: seq<OutputSlot>, inputs: seq<InputSlot>)
    requires e.DataEdge?
  {
    exists o, s :: NamesOutput(outputs, e.srcSlot, o) && NamesInput(inputs, e.dstSlot, s) && o.typ == s.typ
  }

  /** Every data edge between nodes whose schemas resolve joins slots of one type. */
  ghost predicate TypesMatch(g: GraphSpec, reg: Registry)
    requires TypesRegistered(g, reg)
  {
    forall e, src, dst | e in g.edges && e.DataEdge? && src in g.nodes && dst in g.nodes && src.id == e.src
           && dst.id == e.dst
                      && OutputsForRoot(g, reg, reg[src.typ], src).Some? && EffectiveInputs(reg[dst.typ], dst).Some? ::
      SlotsAgree(e, OutputsForRoot(g, reg, reg[src.typ], src).value, EffectiveInputs(reg[dst.typ], dst).value)
  }

  function DataEdges(edges: seq<EdgeSpec>): (r: seq<EdgeSpec>)
    ensures forall e :: e in r <==> e in edges && e.DataEdge?
  {
    if edges == [] then []
    else
      var front, e := edges[..|edges| - 1], edges[|edges| - 1];
      assert edges == front + [e];
      if e.DataEdge? then DataEdges(front) + [e] else DataEdges(front)
  }

  ghost predicate DataAcyclic(g: GraphSpec) {
    Acyclic(IdSet(g), Arcs(DataEdges(g.edges)))
  }

  ghost predicate ConfigsOk(g: GraphSpec, reg: Registry)
    requires TypesRegistered(g, reg)
  {
    forall n | n in g.nodes :: reg[n.typ].configOk(n.config)
  }

  /** The edge fills a slot that its root declares, with a node of the role asked for, and no data
      edge ends at that node. */
  ghost predicate SubEdgeFits(g: GraphSpec, reg: Registry, e: EdgeSpec)
    requires TypesRegistered(g, reg) && e.SubNodeEdge?
  {
    && (forall f | f in g.edges && f.DataEdge? :: f.dst != e.src)
    && forall sub, root | sub in g.nodes && root in g.nodes && sub.id == e.src && root.id == e.dst ::
         && e.slot in reg[root.typ].subNodeSlots
         && var role := reg[root.typ].subNodeSlots[e.slot].acceptsRole;
            role.None? || reg[sub.typ].subNodeRole == role
  }

  /** Every sub-node edge fits; every declared slot holds the number of sub-nodes it asks for. */
  ghost predicate SubNodesOk(g: GraphSpec, reg: Registry)
    requires TypesRegistered(g, reg)
  {
    && (forall e | e in g.edges && e.SubNodeEdge? :: SubEdgeFits(g, reg, e))
    && (forall n, slot | n in g.nodes && slot in reg[n.typ].subNodeSlots ::
          CardinalityOk(reg[n.typ].subNodeSlots[slot].cardinality, |Wired(g.edges, n.id, slot)|))
  }

  ghost predicate Valid(g: GraphSpec, reg: Registry, d: Connections.Directory) {
    && EdgesKnown(g) && TypesRegistered(g, reg)
    && InputsCovered(g, reg) && TypesMatch(g, reg) && DataAcyclic(g) && ConfigsOk(g, reg)
    && (forall name | Connections.Names(g.nodes, name) :: Connections.Answered(d, name))
    && SubNodesOk(g, reg)
  }

  method ValidateGraph(g: GraphSpec, reg: Registry, d: Connections.Directory) returns (issues: seq<Issue>)
    requires UniqueIds(g)
    ensures issues == [] <==> Valid(g, reg, d)
  {
    hide Unregistered, SubNodesOk, InputsCovered, TypesMatch, ConfigsOk, EdgesKnown, Acyclic, UniqueIds;
    var structural, valid := CheckStructural(g);
    var types, unregistered := CheckUnregisteredTypes(g, reg);
    var inputs := CheckRequiredInputs(g, reg, valid, unregistered, SubNodeIds(g));
    var mismatches := CheckTypeMismatches(g, reg, valid, unregistered);
    var cycles := CheckCycles(g, valid);
    CyclesClean(g);
    var configs := CheckConfigSchema(g, reg, unregistered);
    var missing := Connections.CheckMissingConnections(d, g.nodes);
    var subNodes := CheckSubNodeEdges(g, reg, unregistered);
    issues := structural + types + inputs + mismatches + cycles + configs + MissingIssues(missing) + subNodes;
    StructuralClean(g, structural);
    TypesClean(g, reg, types);
    if structural == [] && types == [] {
      NobodyUnregistered(g, reg);
      InputsClean(g, reg, inputs);
      MismatchesClean(g, reg, mismatches);
      ConfigsClean(g, reg, configs);
      SubNodesClean(g, reg, subNodes);
    }
  }

  function MissingIssues(missing: seq<Connections.Missing>): (r: seq<Issue>)
    ensures |r| == |missing|
  {
    seq(|missing|, i requires 0 <= i < |missing| => MissingConnection(missing[i].node, missing[i].name))
  }

  lemma StructuralClean(g: GraphSpec, issues: seq<Issue>)
    requires forall x :: x in issues <==> exists e :: e in g.edges && StructuralIssue(IdSet(g), e, x)
    ensures issues == [] <==> EdgesKnown(g)
  {
    if issues == [] {
      forall e | e in g.edges ensures e.src in IdSet(g) && e.dst in IdSet(g) {
        assert UnknownSource(e.src) !in issues && UnknownTarget(e.dst) !in issues;
      }
    } else {
      assert issues[0] in issues;
    }
  }

  lemma TypesClean(g: GraphSpec, reg: Registry, issues: seq<Issue>)
    requires forall x :: x in issues <==> exists n :: n in g.nodes && n.typ !in reg && x == UnregisteredType(n.id)
    ensures issues == [] <==> TypesRegistered(g, reg)
  {
    if issues == [] {
      forall n | n in g.nodes ensures n.typ in reg {
        assert UnregisteredType(n.id) !in issues;
      }
    } else {
      assert issues[0] in issues;
    }
  }

  lemma NobodyUnregistered(g: GraphSpec, reg: Registry)
    requires TypesRegistered(g, reg)
    ensures Unregistered(g, reg) == {}
  {
  }

  /** With no dangling edge, the edges that the structural check hands on are all data edges. */
  lemma CyclesClean(g: GraphSpec)
    ensures EdgesKnown(g) ==> ValidEdges(IdSet(g), g.edges) == DataEdges(g.edges)
  {
    if EdgesKnown(g) {
      AllEdgesValid(IdSet(g), g.edges);
    }
  }

  lemma {:induction false} AllEdgesValid(ids: set<Id>, edges: seq<EdgeSpec>)
    requires forall e | e in edges :: !Dangling(ids, e)
    ensures ValidEdges(ids, edges) == DataEdges(edges)
  {
    if edges != [] {
      AllEdgesValid(ids, edges[..|edges| - 1]);
    }
  }

  lemma InputsClean(g: GraphSpec, reg: Registry, issues: seq<Issue>)
    requires EdgesKnown(g) && TypesRegistered(g, reg) && Unregistered(g, reg) == {}
    requires forall x :: x in issues <==>
               exists n :: n in g.nodes && NodeLacks(reg, {} + SubNodeIds(g),
                                                     CoveredSlots(ValidEdges(IdSet(g), g.edges)), n, x)
    ensures issues == [] <==> InputsCovered(g, reg)
  {
    hide EdgesKnown, ValidEdges, CoveredSlots, HasEdgeInto;
    var covered := CoveredSlots(ValidEdges(IdSet(g), g.edges));
    forall n, slot ensures (n, slot) in covered <==> HasEdgeInto(g, n, slot) {
      CoveredByEdge(g, n, slot);
    }
    if issues == [] {
      forall n, s | n in g.nodes && !IsSubNode(g, n.id) && EffectiveInputs(reg[n.typ], n).Some?
                  && s in EffectiveInputs(reg[n.typ], n).value && s.required
        ensures s.name in n.inputValues || HasEdgeInto(g, n.id, s.name)
      {
        assert MissingInput(n.id, s.name) !in issues;
        assert !NodeLacks(reg, {} + SubNodeIds(g), covered, n, MissingInput(n.id, s.name));
      }
    } else {
      assert issues[0] in issues;
    }
  }

  lemma CoveredByEdge(g: GraphSpec, n: Id, slot: Slot)
    requires EdgesKnown(g)
    ensures (n, slot) in CoveredSlots(ValidEdges(IdSet(g), g.edges)) <==> HasEdgeInto(g, n, slot)
  {
    if HasEdgeInto(g, n, slot) {
      var e :| e in g.edges && e.DataEdge? && e.dst == n && e.dstSlot == slot;
      assert e in ValidEdges(IdSet(g), g.edges);
    }
  }

  lemma MismatchesClean(g: GraphSpec, reg: Registry, issues: seq<Issue>)
    requires UniqueIds(g) && EdgesKnown(g) && TypesRegistered(g, reg) && Unregistered(g, reg) == {}
    requires forall x :: x in issues <==>
               exists e :: e in ValidEdges(IdSet(g), g.edges) && Mismatch(g, reg, {}, e, x)
    ensures issues == [] <==> TypesMatch(g, reg)
  {
    hide UniqueIds, EdgesKnown, Mismatch, TypesMatch, EdgeMatches, IdSet, Unregistered;
    TypesMatchByEdge(g, reg);
    if issues == [] {
      forall e | e in g.edges && e.DataEdge? ensures EdgeMatches(g, reg, e) {
        ValidEnds(g, e);
        forall x ensures !Mismatch(g, reg, {}, e, x) {
          assert x !in issues;
        }
        NoMismatch(g, reg, e);
      }
    } else {
      assert issues[0] in issues;
      var e :| e in ValidEdges(IdSet(g), g.edges) && Mismatch(g, reg, {}, e, issues[0]);
      NoMismatch(g, reg, e);
    }
  }

  /** What is asked of one data edge. */
  ghost predicate EdgeMatches(g: GraphSpec, reg: Registry, e: EdgeSpec)
    requires TypesRegistered(g, reg) && e.DataEdge?
  {
    forall src, dst | src in g.nodes && dst in g.nodes && src.id == e.src && dst.id == e.dst
                   && OutputsForRoot(g, reg, reg[src.typ], src).Some? && EffectiveInputs(reg[dst.typ], dst).Some? ::
      SlotsAgree(e, OutputsForRoot(g, reg, reg[src.typ], src).value, EffectiveInputs(reg[dst.typ], dst).value)
  }

  lemma TypesMatchByEdge(g: GraphSpec, reg: Registry)
    requires TypesRegistered(g, reg)
    ensures TypesMatch(g, reg) <==> forall e | e in g.edges && e.DataEdge? :: EdgeMatches(g, reg, e)
  {
    hide SlotsAgree, OutputsForRoot, EffectiveInputs;
  }

  /** Nothing is wrong with an edge exactly if its slots agree. */
  lemma NoMismatch(g: GraphSpec, reg: Registry, e: EdgeSpec)
    requires UniqueIds(g) && EdgesKnown(g) && TypesRegistered(g, reg) && Unregistered(g, reg) == {}
    requires e in ValidEdges(IdSet(g), g.edges)
    ensures (forall x :: !Mismatch(g, reg, {}, e, x)) <==> EdgeMatches(g, reg, e)
  {
    hide UniqueIds, EdgesKnown, EdgeOffence, SlotsAgree, Unregistered, IdSet, ValidEdges, OutputsForRoot,
      EffectiveInputs;
    ValidIsComparable(g, reg, e);
    var src, dst := NodesById(g.nodes)[e.src], NodesById(g.nodes)[e.dst];
    forall n | n in g.nodes && n.id == e.src ensures n == src {
      NodesByIdUnique(g, n);
    }
    forall n | n in g.nodes && n.id == e.dst ensures n == dst {
      NodesByIdUnique(g, n);
    }
    var outputs, inputs := OutputsForRoot(g, reg, reg[src.typ], src), EffectiveInputs(reg[dst.typ], dst);
    if outputs.Some? && inputs.Some? {
      NoOffence(e, outputs.value, inputs.value);
      if x :| EdgeOffence(e, outputs.value, inputs.value, x) {
        assert Mismatch(g, reg, {}, e, x);
      }
    }
  }

  lemma NoOffence(e: EdgeSpec, outputs: seq<OutputSlot>, inputs: seq<InputSlot>)
    requires e.DataEdge?
    ensures (forall x :: !EdgeOffence(e, outputs, inputs, x)) <==> SlotsAgree(e, outputs, inputs)
  {
    NamedOutputIsFound(outputs, e.srcSlot);
    NamedInputIsFound(inputs, e.dstSlot);
    hide NamesInput, NamesOutput;
    var output, input := FindOutput(outputs, e.srcSlot), FindInput(inputs, e.dstSlot);
    if output.None? {
      assert EdgeOffence(e, outputs, inputs, NoOutputSlot(e.src, e.srcSlot));
    } else if input.None? {
      assert EdgeOffence(e, outputs, inputs, NoInputSlot(e.dst, e.dstSlot));
    } else if output.value.typ != input.value.typ {
      assert EdgeOffence(e, outputs, inputs, TypeMismatch(e));
    }
  }

  lemma ValidEnds(g: GraphSpec, e: EdgeSpec)
    requires EdgesKnown(g) && e in g.edges && e.DataEdge?
    ensures e in ValidEdges(IdSet(g), g.edges)
  {
  }

  lemma ConfigsClean(g: GraphSpec, reg: Registry, issues: seq<Issue>)
    requires TypesRegistered(g, reg)
    requires forall x :: x in issues <==> exists n :: n in g.nodes && BadConfig(reg, {}, n) && x == InvalidConfig(n.id)
    ensures issues == [] <==> ConfigsOk(g, reg)
  {
    if issues == [] {
      forall n | n in g.nodes ensures reg[n.typ].configOk(n.config) {
        assert InvalidConfig(n.id) !in issues;
      }
    } else {
      assert issues[0] in issues;
    }
  }

  // ----- Sub-nodes -----

  lemma {:induction false} AcceptedIsWired(g: GraphSpec, reg: Registry, k: nat, root: Id, slot: string)
    requires k <= |g.edges|
    requires forall e | e in g.edges && e.SubNodeEdge? :: Accepted(g, reg, {}, e)
    ensures AcceptedSubs(g, reg, {}, k, root, slot) == Wired(g.edges[..k], root, slot)
  {
    hide Accepted;
    if k > 0 {
      AcceptedIsWired(g, reg, k - 1, root, slot);
      assert g.edges[..k][..k - 1] == g.edges[..k - 1];
      assert g.edges[k - 1] in g.edges;
      if !g.edges[k - 1].SubNodeEdge? {
        NotConsidered(g, reg, {}, g.edges[k - 1]);
        assert !Accepted(g, reg, {}, g.edges[k - 1]) by { OnlyConsidered(g, reg, g.edges[k - 1]); }
      }
    }
  }

  lemma OnlyConsidered(g: GraphSpec, reg: Registry, e: EdgeSpec)
    requires !Considered(g, reg, {}, e)
    ensures !Accepted(g, reg, {}, e)
  {
  }

  lemma NoSubEdgeIssue(g: GraphSpec, reg: Registry, e: EdgeSpec)
    requires EdgesKnown(g) && TypesRegistered(g, reg) && Unregistered(g, reg) == {} && e in g.edges && e.SubNodeEdge?
    ensures (forall x :: !SubEdgeIssue(g, reg, {}, e, x)) <==>
            (Accepted(g, reg, {}, e) && e.src !in DataTargets(g))
  {
    KnownEnds(g, e);
    IsConsidered(g, reg, {}, e);
    if Declared(g, reg, e) && RoleFits(g, reg, e) {
      assert e.src in DataTargets(g) ==> SubEdgeIssue(g, reg, {}, e, ConflictingEdges(e.dst, e.src));
    } else if !Declared(g, reg, e) {
      assert SubEdgeIssue(g, reg, {}, e, UnknownSubNodeSlot(e.dst, e.slot));
    } else {
      assert SubEdgeIssue(g, reg, {}, e, IncompatibleSubNode(e.dst, e.slot, e.src));
    }
  }

  lemma KnownEnds(g: GraphSpec, e: EdgeSpec)
    requires EdgesKnown(g) && e in g.edges
    ensures e.src in NodesById(g.nodes) && e.dst in NodesById(g.nodes)
  {
  }

  /** The rule accepts a sub-node edge exactly if it fits. */
  lemma AcceptedFits(g: GraphSpec, reg: Registry, e: EdgeSpec)
    requires UniqueIds(g) && EdgesKnown(g) && TypesRegistered(g, reg) && e in g.edges && e.SubNodeEdge?
    ensures Accepted(g, reg, {}, e) && e.src !in DataTargets(g) <==> SubEdgeFits(g, reg, e)
  {
    hide UniqueIds, EdgesKnown;
    KnownEnds(g, e);
    var sub, root := NodesById(g.nodes)[e.src], NodesById(g.nodes)[e.dst];
    forall n | n in g.nodes && n.id == e.src ensures n == sub {
      NodesByIdUnique(g, n);
    }
    forall n | n in g.nodes && n.id == e.dst ensures n == root {
      NodesByIdUnique(g, n);
    }
  }

  /** The rule's own reading of "every sub-node edge fits". */
  ghost predicate AllAccepted(g: GraphSpec, reg: Registry) {
    forall e | e in g.edges && e.SubNodeEdge? :: Accepted(g, reg, {}, e) && e.src !in DataTargets(g)
  }

  lemma AcceptedAreFitting(g: GraphSpec, reg: Registry)
    requires UniqueIds(g) && EdgesKnown(g) && TypesRegistered(g, reg)
    ensures AllAccepted(g, reg) <==> forall e | e in g.edges && e.SubNodeEdge? :: SubEdgeFits(g, reg, e)
  {
    hide UniqueIds, EdgesKnown, SubEdgeFits, Accepted;
    forall e | e in g.edges && e.SubNodeEdge?
      ensures Accepted(g, reg, {}, e) && e.src !in DataTargets(g) <==> SubEdgeFits(g, reg, e)
    {
      AcceptedFits(g, reg, e);
    }
  }

  lemma SubEdgesClean(g: GraphSpec, reg: Registry)
    requires EdgesKnown(g) && TypesRegistered(g, reg) && Unregistered(g, reg) == {}
    ensures (forall e, x | e in g.edges :: !SubEdgeIssue(g, reg, {}, e, x)) <==> AllAccepted(g, reg)
  {
    hide SubEdgeIssue, Accepted, Unregistered, EdgesKnown;
    forall e | e in g.edges && e.SubNodeEdge?
      ensures (forall x :: !SubEdgeIssue(g, reg, {}, e, x)) <==> (Accepted(g, reg, {}, e) && e.src !in DataTargets(g))
    {
      NoSubEdgeIssue(g, reg, e);
    }
    forall e, x | e in g.edges && !e.SubNodeEdge? ensures !SubEdgeIssue(g, reg, {}, e, x) {
      NotConsidered(g, reg, {}, e);
      NoIssueUnconsidered(g, reg, e, x);
    }
  }

  lemma NoIssueUnconsidered(g: GraphSpec, reg: Registry, e: EdgeSpec, x: Issue)
    requires !Considered(g, reg, {}, e)
    ensures !SubEdgeIssue(g, reg, {}, e, x)
  {
  }

  lemma CardinalitiesClean(g: GraphSpec, reg: Registry, n: NodeSpec)
    requires n in g.nodes && TypesRegistered(g, reg) && AllAccepted(g, reg)
    ensures (forall x :: !NodeCardinalityIssue(g, reg, {}, n, x)) <==>
            (forall slot | slot in reg[n.typ].subNodeSlots ::
               CardinalityOk(reg[n.typ].subNodeSlots[slot].cardinality, |Wired(g.edges, n.id, slot)|))
  {
    hide Accepted, CardinalityOk, CardinalityComplaint;
    forall slot ensures AcceptedSubs(g, reg, {}, |g.edges|, n.id, slot) == Wired(g.edges, n.id, slot) {
      AcceptedIsWired(g, reg, |g.edges|, n.id, slot);
      assert g.edges[..|g.edges|] == g.edges;
    }
    forall slot | slot in reg[n.typ].subNodeSlots
               && !CardinalityOk(reg[n.typ].subNodeSlots[slot].cardinality, |Wired(g.edges, n.id, slot)|)
      ensures exists x :: NodeCardinalityIssue(g, reg, {}, n, x)
    {
      assert slot in reg[n.typ].subNodeSlots.Keys;
      assert NodeCardinalityIssue(g, reg, {}, n,
        CardinalityComplaint(reg[n.typ].subNodeSlots[slot].cardinality, n.id, slot, |Wired(g.edges, n.id, slot)|));
    }
  }

  lemma SubNodesClean(g: GraphSpec, reg: Registry, issues: seq<Issue>)
    requires UniqueIds(g) && EdgesKnown(g) && TypesRegistered(g, reg) && Unregistered(g, reg) == {}
    requires forall x :: x in issues <==>
               ((exists e :: e in g.edges && SubEdgeIssue(g, reg, {}, e, x))
                || exists n :: n in g.nodes && NodeCardinalityIssue(g, reg, {}, n, x))
    ensures issues == [] <==> SubNodesOk(g, reg)
  {
    hide SubEdgeIssue, AllAccepted, SubEdgeFits, NodeCardinalityIssue, CardinalityOk, Wired, Unregistered, EdgesKnown,
      UniqueIds;
    SubEdgesClean(g, reg);
    AcceptedAreFitting(g, reg);
    if issues == [] {
      forall e, x | e in g.edges ensures !SubEdgeIssue(g, reg, {}, e, x) {
        assert x !in issues;
      }
      forall n | n in g.nodes
        ensures forall slot | slot in reg[n.typ].subNodeSlots ::
                  CardinalityOk(reg[n.typ].subNodeSlots[slot].cardinality, |Wired(g.edges, n.id, slot)|)
      {
        forall x ensures !NodeCardinalityIssue(g, reg, {}, n, x) {
          assert x !in issues;
        }
        CardinalitiesClean(g, reg, n);
      }
    } else if SubNodesOk(g, reg) {
      assert issues[0] in issues;
      forall n | n in g.nodes ensures !NodeCardinalityIssue(g, reg, {}, n, issues[0]) {
        CardinalitiesClean(g, reg, n);
      }
    }
  }
}
