/** The validation rules (backend/validation/rules.py) and their aggregation
(backend/validation/validator.py). Each rule is proved to report exactly the offences that its
declarative reading names. */
module Rules {
  import opened Digraph
  import opened Wrappers
  import opened Graph
  import Topo

  datatype Issue =
    | UnknownSource(node: Id)
    | UnknownTarget(node: Id)
    | UnregisteredType(node: Id)
    | MissingInput(node: Id, slot: Slot)
    | NoOutputSlot(node: Id, slot: Slot)
    | NoInputSlot(node: Id, slot: Slot)
    | TypeMismatch(edge: EdgeSpec)
    | Cycle(nodes: seq<Id>)
    | InvalidConfig(node: Id)
    | MissingConnection(node: Id, name: string)
    | UnknownSubNodeSlot(root: Id, slot: string)
    | IncompatibleSubNode(root: Id, slot: string, sub: Id)
    | ConflictingEdges(root: Id, sub: Id)
    | NotExactlyOne(root: Id, slot: string, found: nat)
    | MoreThanOne(root: Id, slot: string, found: nat)

  function IdSet(g: GraphSpec): (r: set<Id>)
    ensures r == Elements(NodeIds(g.nodes))
  {
    var r := set n | n in g.nodes :: n.id;
    assert forall x :: x in r <==> x in NodeIds(g.nodes) by {
      forall x ensures x in r <==> x in NodeIds(g.nodes) {
        if x in NodeIds(g.nodes) {
          var i :| 0 <= i < |g.nodes| && NodeIds(g.nodes)[i] == x;
          assert g.nodes[i] in g.nodes;
        }
        if x in r {
          var n :| n in g.nodes && n.id == x;
          var i :| 0 <= i < |g.nodes| && g.nodes[i] == n;
          assert NodeIds(g.nodes)[i] == x;
        }
      }
    }
    r
  }

  // ----- check_structural -----

  predicate Dangling(ids: set<Id>, e: EdgeSpec) {
    e.src !in ids || e.dst !in ids
  }

  ghost predicate StructuralIssue(ids: set<Id>, e: EdgeSpec, x: Issue) {
    (e.src !in ids && x == UnknownSource(e.src)) || (e.dst !in ids && x == UnknownTarget(e.dst))
  }

  /** The data edges whose ends exist, in order. */
  function ValidEdges(ids: set<Id>, edges: seq<EdgeSpec>): (r: seq<EdgeSpec>)
    ensures forall e :: e in r <==> e in edges && e.DataEdge? && !Dangling(ids, e)
  {
    if edges == [] then []
    else
      var front, e := edges[..|edges| - 1], edges[|edges| - 1];
      assert edges == front + [e];
      if e.DataEdge? && !Dangling(ids, e) then ValidEdges(ids, front) + [e] else ValidEdges(ids, front)
  }

  method CheckStructural(g: GraphSpec) returns (issues: seq<Issue>, valid: seq<EdgeSpec>)
    ensures forall x :: x in issues <==> exists e :: e in g.edges && StructuralIssue(IdSet(g), e, x)
    ensures valid == ValidEdges(IdSet(g), g.edges)
  {
    var ids := IdSet(g);
    issues, valid := [], [];
    for i := 0 to |g.edges|
      invariant forall x :: x in issues <==> exists e :: e in g.edges[..i] && StructuralIssue(ids, e, x)
      invariant valid == ValidEdges(ids, g.edges[..i])
    {
      var e := g.edges[i];
      assert g.edges[..i + 1] == g.edges[..i] + [e];
      var problems := (if e.src !in ids then [UnknownSource(e.src)] else [])
                    + (if e.dst !in ids then [UnknownTarget(e.dst)] else []);
      assert forall x :: x in problems <==> StructuralIssue(ids, e, x);
      if problems != [] {
        issues := issues + problems;
      } else if e.DataEdge? {
        valid := valid + [e];
      }
    }
    assert g.edges[..|g.edges|] == g.edges;
  }

  // ----- check_unregistered_types -----

  function Unregistered(g: GraphSpec, reg: Registry): set<Id> {
    set n | n in g.nodes && n.typ !in reg :: n.id
  }

  method CheckUnregisteredTypes(g: GraphSpec, reg: Registry) returns (issues: seq<Issue>, unregistered: set<Id>)
    ensures forall x :: x in issues <==> exists n :: n in g.nodes && n.typ !in reg && x == UnregisteredType(n.id)
    ensures unregistered == Unregistered(g, reg)
  {
    issues, unregistered := [], {};
    for i := 0 to |g.nodes|
      invariant forall x :: x in issues <==> exists n ::
                  n in g.nodes[..i] && n.typ !in reg && x == UnregisteredType(n.id)
      invariant unregistered == set n | n in g.nodes[..i] && n.typ !in reg :: n.id
    {
      var n := g.nodes[i];
      assert g.nodes[..i + 1] == g.nodes[..i] + [n];
      if n.typ !in reg {
        issues := issues + [UnregisteredType(n.id)];
        unregistered := unregistered + {n.id};
      }
    }
    assert g.nodes[..|g.nodes|] == g.nodes;
  }

  // ----- check_required_inputs -----

  function SubNodeIds(g: GraphSpec): set<Id> {
    set e | e in g.edges && e.SubNodeEdge? :: e.src
  }

  /** A required slot with neither an edge nor a literal. */
  predicate Lacks(n: NodeSpec, covered: set<(Id, Slot)>, s: InputSlot) {
    s.required && (n.id, s.name) !in covered && s.name !in n.inputValues
  }

  ghost predicate NodeLacks(reg: Registry, skip: set<Id>, covered: set<(Id, Slot)>, n: NodeSpec, x: Issue) {
    && n.id !in skip && n.typ in reg && EffectiveInputs(reg[n.typ], n).Some?
    && exists s :: s in EffectiveInputs(reg[n.typ], n).value && Lacks(n, covered, s) && x == MissingInput(n.id, s.name)
  }

  function CoveredSlots(valid: seq<EdgeSpec>): set<(Id, Slot)> {
    set e | e in valid && e.DataEdge? :: (e.dst, e.dstSlot)
  }

  method CheckRequiredInputs(g: GraphSpec, reg: Registry, valid: seq<EdgeSpec>, unregistered: set<Id>,
                             subNodes: set<Id>)
    returns (issues: seq<Issue>)
    requires unregistered == Unregistered(g, reg)
    ensures forall x :: x in issues <==>
              exists n :: n in g.nodes && NodeLacks(reg, unregistered + subNodes, CoveredSlots(valid), n, x)
  {
    var covered := CoveredSlots(valid);
    issues := [];
    for i := 0 to |g.nodes|
      invariant forall x :: x in issues <==>
                  exists n :: n in g.nodes[..i] && NodeLacks(reg, unregistered + subNodes, covered, n, x)
    {
      var n := g.nodes[i];
      assert g.nodes[..i + 1] == g.nodes[..i] + [n];
      if n.id in unregistered || n.id in subNodes {
        continue;
      }
      assert n in g.nodes;
      var inputs := EffectiveInputs(reg[n.typ], n);
      if inputs.None? {
        continue;
      }
      var missing: seq<Issue> := [];
      for j := 0 to |inputs.value|
        invariant forall x :: x in missing <==>
                    exists s :: s in inputs.value[..j] && Lacks(n, covered, s) && x == MissingInput(n.id, s.name)
      {
        var s := inputs.value[j];
        assert inputs.value[..j + 1] == inputs.value[..j] + [s];
        if Lacks(n, covered, s) {
          missing := missing + [MissingInput(n.id, s.name)];
        }
      }
      assert inputs.value[..|inputs.value|] == inputs.value;
      assert forall x :: x in missing <==> NodeLacks(reg, unregistered + subNodes, covered, n, x);
      issues := issues + missing;
    }
    assert g.nodes[..|g.nodes|] == g.nodes;
  }

  // ----- check_type_mismatches -----

  /** s is the slot that this name means: the first one of that name. */
  ghost predicate NamesInput(slots: seq<InputSlot>, name: Slot, s: InputSlot) {
    exists i :: 0 <= i < |slots| && slots[i] == s && s.name == name && forall j | 0 <= j < i :: slots[j].name != name
  }

  ghost predicate NamesOutput(slots: seq<OutputSlot>, name: Slot, s: OutputSlot) {
    exists i :: 0 <= i < |slots| && slots[i] == s && s.name == name && forall j | 0 <= j < i :: slots[j].name != name
  }

  function FindInput(slots: seq<InputSlot>, name: Slot): (r: Option<InputSlot>)
    ensures r.Some? ==> NamesInput(slots, name, r.value) && r.value in slots && r.value.name == name
    ensures r.None? ==> forall s | s in slots :: s.name != name
  {
    if slots == [] then None
    else if slots[0].name == name then Some(slots[0])
    else
      var r := FindInput(slots[1..], name);
      assert r.Some? ==> NamesInput(slots, name, r.value) by {
        if r.Some? {
          var i :| 0 <= i < |slots| - 1 && slots[1..][i] == r.value && r.value.name == name
                && forall j | 0 <= j < i :: slots[1..][j].name != name;
          assert slots[i + 1] == r.value;
          assert forall j | 0 < j < i + 1 :: slots[j] == slots[1..][j - 1];
        }
      }
      r
  }

  function FindOutput(slots: seq<OutputSlot>, name: Slot): (r: Option<OutputSlot>)
    ensures r.Some? ==> NamesOutput(slots, name, r.value) && r.value in slots && r.value.name == name
    ensures r.None? ==> forall s | s in slots :: s.name != name
  {
    if slots == [] then None
    else if slots[0].name == name then Some(slots[0])
    else
      var r := FindOutput(slots[1..], name);
      assert r.Some? ==> NamesOutput(slots, name, r.value) by {
        if r.Some? {
          var i :| 0 <= i < |slots| - 1 && slots[1..][i] == r.value && r.value.name == name
                && forall j | 0 <= j < i :: slots[1..][j].name != name;
          assert slots[i + 1] == r.value;
          assert forall j | 0 < j < i + 1 :: slots[j] == slots[1..][j - 1];
        }
      }
      r
  }

  lemma NamedInputIsFound(slots: seq<InputSlot>, name: Slot)
    ensures forall s :: NamesInput(slots, name, s) <==> FindInput(slots, name) == Some(s)
  {
  }

  lemma NamedOutputIsFound(slots: seq<OutputSlot>, name: Slot)
    ensures forall s :: NamesOutput(slots, name, s) <==> FindOutput(slots, name) == Some(s)
  {
  }

  /** The sub-nodes wired into a root's slot, in edge order. */
  function Wired(edges: seq<EdgeSpec>, root: Id, slot: string): seq<Id> {
    if edges == [] then []
    else
      var e := edges[|edges| - 1];
      var before := Wired(edges[..|edges| - 1], root, slot);
      if e.SubNodeEdge? && e.dst == root && e.slot == slot then before + [e.src] else before
  }

  /** The ports of a node as validation sees them: a root that mirrors a sub-node slot has the
      outputs of the first sub-node wired into it. */
  function OutputsForRoot(g: GraphSpec, reg: Registry, d: NodeDefinition, n: NodeSpec): Option<seq<OutputSlot>> {
    if d.slotsFromSubNode.None? then EffectiveOutputs(d, n)
    else
      var subs := Wired(g.edges, n.id, d.slotsFromSubNode.value);
      if subs == [] || subs[0] !in NodesById(g.nodes) then Some([])
      else
        var sub := NodesById(g.nodes)[subs[0]];
        if sub.typ !in reg then Some([]) else EffectiveOutputs(reg[sub.typ], sub)
  }

  /** What is wrong with a data edge from these ports into these slots. */
  ghost predicate EdgeOffence(e: EdgeSpec, outputs: seq<OutputSlot>, inputs: seq<InputSlot>, x: Issue)
    requires e.DataEdge?
  {
    || (x == NoOutputSlot(e.src, e.srcSlot) && forall o | o in outputs :: o.name != e.srcSlot)
    || (x == NoInputSlot(e.dst, e.dstSlot) && (exists o :: o in outputs && o.name == e.srcSlot)
        && forall s | s in inputs :: s.name != e.dstSlot)
    || (x == TypeMismatch(e)
        && exists o, s :: NamesOutput(outputs, e.srcSlot, o) && NamesInput(inputs, e.dstSlot, s) && o.typ != s.typ)
  }

  /** Both ends of a data edge exist and have registered types. */
  predicate Comparable(g: GraphSpec, reg: Registry, e: EdgeSpec) {
    && e.DataEdge? && e.src in NodesById(g.nodes) && e.dst in NodesById(g.nodes)
    && NodesById(g.nodes)[e.src].typ in reg && NodesById(g.nodes)[e.dst].typ in reg
  }

  /** A data edge between registered nodes whose schemas both resolve offends. */
  ghost predicate Mismatch(g: GraphSpec, reg: Registry, unregistered: set<Id>, e: EdgeSpec, x: Issue) {
    && e.src !in unregistered && e.dst !in unregistered && Comparable(g, reg, e)
    && var src, dst := NodesById(g.nodes)[e.src], NodesById(g.nodes)[e.dst];
       var outputs, inputs := OutputsForRoot(g, reg, reg[src.typ], src), EffectiveInputs(reg[dst.typ], dst);
       outputs.Some? && inputs.Some? && EdgeOffence(e, outputs.value, inputs.value, x)
  }

  lemma ValidIsComparable(g: GraphSpec, reg: Registry, e: EdgeSpec)
    requires e in ValidEdges(IdSet(g), g.edges) && e.src !in Unregistered(g, reg) && e.dst !in Unregistered(g, reg)
    ensures Comparable(g, reg, e)
  {
    var byId := NodesById(g.nodes);
    assert e.src in byId && e.dst in byId;
    assert byId[e.src] in g.nodes && byId[e.dst] in g.nodes;
  }

  /** The lookups for one edge whose schemas resolve: at most one complaint. */
  method CompareSlots(e: EdgeSpec, outputs: seq<OutputSlot>, inputs: seq<InputSlot>) returns (issues: seq<Issue>)
    requires e.DataEdge?
    ensures forall x :: x in issues <==> EdgeOffence(e, outputs, inputs, x)
  {
    NamedOutputIsFound(outputs, e.srcSlot);
    NamedInputIsFound(inputs, e.dstSlot);
    hide NamesInput, NamesOutput;
    var output, input := FindOutput(outputs, e.srcSlot), FindInput(inputs, e.dstSlot);
    if output.None? {
      return [NoOutputSlot(e.src, e.srcSlot)];
    }
    if input.None? {
      return [NoInputSlot(e.dst, e.dstSlot)];
    }
    if output.value.typ != input.value.typ {
      return [TypeMismatch(e)];
    }
    issues := [];
  }

  method CheckTypeMismatches(g: GraphSpec, reg: Registry, valid: seq<EdgeSpec>, unregistered: set<Id>)
    returns (issues: seq<Issue>)
    requires valid == ValidEdges(IdSet(g), g.edges) && unregistered == Unregistered(g, reg)
    ensures forall x :: x in issues <==> exists e :: e in valid && Mismatch(g, reg, unregistered, e, x)
  {
    hide EdgeOffence, Comparable, IdSet, Unregistered, ValidEdges, OutputsForRoot, EffectiveInputs;
    var nodesById := NodesById(g.nodes);
    issues := [];
    for i := 0 to |valid|
      invariant forall x :: x in issues <==> exists e :: e in valid[..i] && Mismatch(g, reg, unregistered, e, x)
    {
      var e := valid[i];
      assert valid[..i + 1] == valid[..i] + [e];
      if e.src in unregistered || e.dst in unregistered {
        continue;
      }
      ValidIsComparable(g, reg, e);
      ComparableEnds(g, reg, e);
      var src, dst := nodesById[e.src], nodesById[e.dst];
      var outputs, inputs := OutputsForRoot(g, reg, reg[src.typ], src), EffectiveInputs(reg[dst.typ], dst);
      if outputs.None? || inputs.None? {
        continue;
      }
      var complaint := CompareSlots(e, outputs.value, inputs.value);
      assert forall x :: Mismatch(g, reg, unregistered, e, x) <==> x in complaint;
      issues := issues + complaint;
    }
    assert valid[..|valid|] == valid;
  }

  lemma ComparableEnds(g: GraphSpec, reg: Registry, e: EdgeSpec)
    requires Comparable(g, reg, e)
    ensures e.DataEdge? && e.src in NodesById(g.nodes) && e.dst in NodesById(g.nodes)
    ensures NodesById(g.nodes)[e.src].typ in reg && NodesById(g.nodes)[e.dst].typ in reg
  {
  }

  // ----- check_cycles -----

  function Arcs(edges: seq<EdgeSpec>): (r: seq<Arc>)
    ensures |r| == |edges| && forall i | 0 <= i < |r| :: r[i] == Arc(edges[i].src, edges[i].dst)
  {
    seq(|edges|, i requires 0 <= i < |edges| => Arc(edges[i].src, edges[i].dst))
  }

  /** One issue, naming exactly the nodes on a cycle or behind one, if there is any. */
  method CheckCycles(g: GraphSpec, valid: seq<EdgeSpec>) returns (issues: seq<Issue>)
    requires UniqueIds(g)
    ensures issues == [] <==> Acyclic(IdSet(g), Arcs(valid))
    ensures issues != [] ==> |issues| == 1 && issues[0].Cycle?
    ensures issues != [] ==>
              forall n | n in IdSet(g) :: n in issues[0].nodes <==> OnOrAfterCycle(IdSet(g), Arcs(valid), n)
  {
    var order, remaining, rank := Topo.KahnOrder(NodeIds(g.nodes), Arcs(valid));
    if remaining != [] {
      issues := [Cycle(remaining)];
      assert remaining[0] in remaining;
    } else {
      issues := [];
    }
  }

  // ----- check_config_schema -----

  method CheckConfigSchema(g: GraphSpec, reg: Registry, unregistered: set<Id>) returns (issues: seq<Issue>)
    requires unregistered == Unregistered(g, reg)
    ensures forall x :: x in issues <==>
              exists n :: n in g.nodes && BadConfig(reg, unregistered, n) && x == InvalidConfig(n.id)
  {
    issues := [];
    for i := 0 to |g.nodes|
      invariant forall x :: x in issues <==>
                  exists n :: n in g.nodes[..i] && BadConfig(reg, unregistered, n) && x == InvalidConfig(n.id)
    {
      var n := g.nodes[i];
      assert g.nodes[..i + 1] == g.nodes[..i] + [n];
      assert n in g.nodes;
      if n.id !in unregistered && !reg[n.typ].configOk(n.config) {
        issues := issues + [InvalidConfig(n.id)];
      }
    }
    assert g.nodes[..|g.nodes|] == g.nodes;
  }

  predicate BadConfig(reg: Registry, unregistered: set<Id>, n: NodeSpec) {
    n.id !in unregistered && n.typ in reg && !reg[n.typ].configOk(n.config)
  }

  // ----- check_sub_node_edges -----

  function DataTargets(g: GraphSpec): set<Id> {
    set e | e in g.edges && e.DataEdge? :: e.dst
  }

  /** A sub-node edge between known, registered nodes. */
  predicate Considered(g: GraphSpec, reg: Registry, unregistered: set<Id>, e: EdgeSpec) {
    && e.SubNodeEdge? && e.src in NodesById(g.nodes) && e.dst in NodesById(g.nodes)
    && e.src !in unregistered && e.dst !in unregistered
    && NodesById(g.nodes)[e.src].typ in reg && NodesById(g.nodes)[e.dst].typ in reg
  }

  predicate Declared(g: GraphSpec, reg: Registry, e: EdgeSpec)
    requires e.dst in NodesById(g.nodes) && NodesById(g.nodes)[e.dst].typ in reg && e.SubNodeEdge?
  {
    e.slot in reg[NodesById(g.nodes)[e.dst].typ].subNodeSlots
  }

  predicate RoleFits(g: GraphSpec, reg: Registry, e: EdgeSpec)
    requires e.src in NodesById(g.nodes) && NodesById(g.nodes)[e.src].typ in reg
    requires e.dst in NodesById(g.nodes) && NodesById(g.nodes)[e.dst].typ in reg && e.SubNodeEdge?
    requires Declared(g, reg, e)
  {
    var wanted := reg[NodesById(g.nodes)[e.dst].typ].subNodeSlots[e.slot].acceptsRole;
    wanted.None? || reg[NodesById(g.nodes)[e.src].typ].subNodeRole == wanted
  }

  /** The edge fills its slot: declared, and of the right role. */
  predicate Accepted(g: GraphSpec, reg: Registry, unregistered: set<Id>, e: EdgeSpec) {
    Considered(g, reg, unregistered, e) && Declared(g, reg, e) && RoleFits(g, reg, e)
  }

  ghost predicate SubEdgeIssue(g: GraphSpec, reg: Registry, unregistered: set<Id>, e: EdgeSpec, x: Issue) {
    && Considered(g, reg, unregistered, e)
    && if !Declared(g, reg, e) then x == UnknownSubNodeSlot(e.dst, e.slot)
       else if !RoleFits(g, reg, e) then x == IncompatibleSubNode(e.dst, e.slot, e.src)
       else e.src in DataTargets(g) && x == ConflictingEdges(e.dst, e.src)
  }

  /** The accepted sub-nodes of a root's slot, in edge order. */
  function AcceptedSubs(g: GraphSpec, reg: Registry, unregistered: set<Id>, k: nat, root: Id, slot: string): seq<Id>
    requires k <= |g.edges|
  {
    if k == 0 then []
    else
      var e := g.edges[k - 1];
      var before := AcceptedSubs(g, reg, unregistered, k - 1, root, slot);
      if Accepted(g, reg, unregistered, e) && e.dst == root && e.slot == slot then before + [e.src] else before
  }

  /** The first loop: complaints about single edges, and the table of accepted sub-nodes. */
  method CollectSubNodes(g: GraphSpec, reg: Registry, unregistered: set<Id>)
    returns (issues: seq<Issue>, connections: map<(Id, string), seq<Id>>)
    requires unregistered == Unregistered(g, reg)
    ensures forall x :: x in issues <==> exists e :: e in g.edges && SubEdgeIssue(g, reg, unregistered, e, x)
    ensures forall root, slot ::
              At(connections, root, slot) == AcceptedSubs(g, reg, unregistered, |g.edges|, root, slot)
  {
    hide Declared, RoleFits, DataTargets, Unregistered, Considered;
    var nodesById, targets := NodesById(g.nodes), DataTargets(g);
    issues, connections := [], map[];
    for i := 0 to |g.edges|
      invariant forall x :: x in issues <==>
                  exists e :: e in g.edges[..i] && SubEdgeIssue(g, reg, unregistered, e, x)
      invariant forall root, slot ::
                  At(connections, root, slot) == AcceptedSubs(g, reg, unregistered, i, root, slot)
    {
      var e := g.edges[i];
      assert g.edges[..i + 1] == g.edges[..i] + [e];
      var complaint: seq<Issue> := [];
      if e.SubNodeEdge? && e.dst in nodesById && e.src in nodesById && e.dst !in unregistered
         && e.src !in unregistered {
        IsConsidered(g, reg, unregistered, e);
        if !Declared(g, reg, e) {
          complaint := [UnknownSubNodeSlot(e.dst, e.slot)];
        } else if !RoleFits(g, reg, e) {
          complaint := [IncompatibleSubNode(e.dst, e.slot, e.src)];
        } else {
          if e.src in targets {
            complaint := [ConflictingEdges(e.dst, e.src)];
          }
          connections := connections[(e.dst, e.slot) := At(connections, e.dst, e.slot) + [e.src]];
          assert Accepted(g, reg, unregistered, e);
        }
      } else {
        NotConsidered(g, reg, unregistered, e);
      }
      assert forall x :: x in complaint <==> SubEdgeIssue(g, reg, unregistered, e, x);
      issues := issues + complaint;
    }
    assert g.edges[..|g.edges|] == g.edges;
  }

  lemma NotConsidered(g: GraphSpec, reg: Registry, unregistered: set<Id>, e: EdgeSpec)
    requires !e.SubNodeEdge? || e.dst !in NodesById(g.nodes) || e.src !in NodesById(g.nodes)
          || e.dst in unregistered || e.src in unregistered
    ensures !Considered(g, reg, unregistered, e)
  {
  }

  lemma IsConsidered(g: GraphSpec, reg: Registry, unregistered: set<Id>, e: EdgeSpec)
    requires e.SubNodeEdge? && e.dst in NodesById(g.nodes) && e.src in NodesById(g.nodes)
    requires e.dst !in unregistered && e.src !in unregistered && unregistered == Unregistered(g, reg)
    ensures Considered(g, reg, unregistered, e)
    ensures NodesById(g.nodes)[e.src].typ in reg && NodesById(g.nodes)[e.dst].typ in reg
  {
    var byId := NodesById(g.nodes);
    assert byId[e.src] in g.nodes && byId[e.dst] in g.nodes;
  }

  function At(m: map<(Id, string), seq<Id>>, root: Id, slot: string): seq<Id> {
    if (root, slot) in m then m[(root, slot)] else []
  }

  predicate CardinalityOk(c: Cardinality, count: nat) {
    (c == One ==> count == 1) && (c == ZeroOrOne ==> count <= 1)
  }

  /** The complaint about one declared slot holding `count` sub-nodes, if it has the wrong number. */
  function CardinalityComplaint(c: Cardinality, root: Id, slot: string, count: nat): Issue {
    if c == One then NotExactlyOne(root, slot, count) else MoreThanOne(root, slot, count)
  }

  ghost predicate CardinalityIssue(g: GraphSpec, reg: Registry, unregistered: set<Id>, slots: set<string>, n: NodeSpec,
                                   x: Issue) {
    && n.id !in unregistered && n.typ in reg
    && exists slot :: slot in slots && slot in reg[n.typ].subNodeSlots
         && var c, count := reg[n.typ].subNodeSlots[slot].cardinality,
                            |AcceptedSubs(g, reg, unregistered, |g.edges|, n.id, slot)|;
            !CardinalityOk(c, count) && x == CardinalityComplaint(c, n.id, slot, count)
  }

  /** The second loop for one node: every declared slot must hold the right number of sub-nodes. */
  method CheckCardinalities(g: GraphSpec, reg: Registry, unregistered: set<Id>,
                            connections: map<(Id, string), seq<Id>>, n: NodeSpec)
    returns (issues: seq<Issue>)
    requires n.id !in unregistered && n.typ in reg
    requires forall root, slot ::
               At(connections, root, slot) == AcceptedSubs(g, reg, unregistered, |g.edges|, root, slot)
    ensures forall x :: x in issues <==>
              CardinalityIssue(g, reg, unregistered, reg[n.typ].subNodeSlots.Keys, n, x)
  {
    issues := [];
    var slots, todo := reg[n.typ].subNodeSlots, reg[n.typ].subNodeSlots.Keys;
    while todo != {}
      invariant todo <= slots.Keys
      invariant forall x :: x in issues <==> CardinalityIssue(g, reg, unregistered, slots.Keys - todo, n, x)
    {
      var slot :| slot in todo;
      var c, count := slots[slot].cardinality, |At(connections, n.id, slot)|;
      if !CardinalityOk(c, count) {
        issues := issues + [CardinalityComplaint(c, n.id, slot, count)];
      }
      assert slots.Keys - (todo - {slot}) == (slots.Keys - todo) + {slot};
      todo := todo - {slot};
    }
    assert slots.Keys - {} == slots.Keys;
  }

  method CheckSubNodeEdges(g: GraphSpec, reg: Registry, unregistered: set<Id>) returns (issues: seq<Issue>)
    requires unregistered == Unregistered(g, reg)
    ensures forall x :: x in issues <==>
              ((exists e :: e in g.edges && SubEdgeIssue(g, reg, unregistered, e, x))
               || exists n :: n in g.nodes && NodeCardinalityIssue(g, reg, unregistered, n, x))
  {
    hide SubEdgeIssue, CardinalityIssue;
    var connections;
    issues, connections := CollectSubNodes(g, reg, unregistered);
    ghost var first := issues;
    for i := 0 to |g.nodes|
      invariant forall x :: x in issues <==>
                  (x in first || exists n :: n in g.nodes[..i] && NodeCardinalityIssue(g, reg, unregistered, n, x))
    {
      var n := g.nodes[i];
      assert g.nodes[..i + 1] == g.nodes[..i] + [n];
      assert n in g.nodes;
      var more: seq<Issue> := [];
      if n.id !in unregistered {
        more := CheckCardinalities(g, reg, unregistered, connections, n);
      }
      assert forall x :: x in more <==> NodeCardinalityIssue(g, reg, unregistered, n, x);
      issues := issues + more;
    }
    assert g.nodes[..|g.nodes|] == g.nodes;
  }

  ghost predicate NodeCardinalityIssue(g: GraphSpec, reg: Registry, unregistered: set<Id>, n: NodeSpec, x: Issue) {
    n.id !in unregistered && n.typ in reg && CardinalityIssue(g, reg, unregistered, reg[n.typ].subNodeSlots.Keys, n, x)
  }
}
