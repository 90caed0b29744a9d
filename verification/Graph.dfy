/** Graphs, node types and run records (backend/schema, backend/registry/base.py,
backend/execution/types.py, backend/execution/trace.py). */
module Graph {
  import opened Wrappers
  import opened Digraph

  type Slot = string
  type Inputs = map<Slot, Value>

  /** Values carried by slots: JSON, or an object of some node body that JSON has no form for. */
  datatype Value =
    | Null
    | Bool(b: bool)
    | Number(n: int)
    | Text(s: string)
    | List(items: seq<Value>)
    | Object(fields: map<string, Value>)
    | Foreign(id: nat)

  datatype BaseType = TEXT | JSON | FILE_REF | EMBEDDING | IMAGE | BOOLEAN | LIST

  datatype SlotType = SlotType(base: BaseType, element: Option<SlotType>)

  datatype InputSlot = InputSlot(name: Slot, typ: SlotType, required: bool)
  datatype OutputSlot = OutputSlot(name: Slot, typ: SlotType)

  // ----- Graph files -----

  /** An entry of a node's config: plain JSON, or the graph nested in a `loop` node. */
  datatype ConfigValue = Plain(value: Value) | Nested(graph: GraphSpec)

  datatype NodeSpec = NodeSpec(
    id: Id, typ: string, config: map<string, ConfigValue>, inputValues: map<Slot, Value>)

  /** The two shapes that the edge validator accepts. */
  datatype EdgeSpec =
    | DataEdge(src: Id, srcSlot: Slot, dst: Id, dstSlot: Slot)
    | SubNodeEdge(src: Id, dst: Id, slot: string)

  datatype GraphSpec = GraphSpec(nodes: seq<NodeSpec>, edges: seq<EdgeSpec>)

  function NodeIds(nodes: seq<NodeSpec>): (r: seq<Id>)
    ensures |r| == |nodes| && forall i | 0 <= i < |r| :: r[i] == nodes[i].id
  {
    seq(|nodes|, i requires 0 <= i < |nodes| => nodes[i].id)
  }

  /** What the graph validator demands of every graph that can be built. */
  predicate UniqueIds(g: GraphSpec) {
    Distinct(NodeIds(g.nodes))
  }

  function NodesById(nodes: seq<NodeSpec>): (r: map<Id, NodeSpec>)
    ensures forall id | id in r :: r[id] in nodes && r[id].id == id
    ensures forall n | n in nodes :: n.id in r
  {
    if nodes == [] then map[] else NodesById(nodes[..|nodes| - 1])[nodes[|nodes| - 1].id := nodes[|nodes| - 1]]
  }

  lemma SameIdSameNode(g: GraphSpec, i: nat, j: nat)
    requires UniqueIds(g) && i < |g.nodes| && j < |g.nodes| && g.nodes[i].id == g.nodes[j].id
    ensures i == j
  {
    var ids := NodeIds(g.nodes);
    assert ids[i] == ids[j];
  }

  lemma NodesByIdUnique(g: GraphSpec, n: NodeSpec)
    requires UniqueIds(g) && n in g.nodes
    ensures NodesById(g.nodes)[n.id] == n
  {
    hide UniqueIds;
    var m := NodesById(g.nodes)[n.id];
    var i :| 0 <= i < |g.nodes| && g.nodes[i] == n;
    var j :| 0 <= j < |g.nodes| && g.nodes[j] == m;
    SameIdSameNode(g, i, j);
  }

  // ----- Node types -----

  datatype Cardinality = One | ZeroOrOne | Many
  datatype SubNodeSlot = SubNodeSlot(cardinality: Cardinality, acceptsRole: Option<string>)

  type Schema = (seq<InputSlot>, seq<OutputSlot>)

  /** What a node body does: an arbitrary function of the node, its inputs and the run's lookup
      tables, or one of the two bodies that steer the interpreter. */
  datatype Body =
    | Primitive(run: (NodeSpec, Inputs, Resources) -> Outcome)
    | LoopBody
    | WebhookBody

  datatype NodeDefinition = NodeDefinition(
    inputs: seq<InputSlot>,
    outputs: seq<OutputSlot>,
    configOk: map<string, ConfigValue> -> bool,
    body: Body,
    resultSlot: Option<Slot>,
    resolveSlots: Option<NodeSpec -> Option<Schema>>,
    subNodeSlots: map<string, SubNodeSlot>,
    subNodeRole: Option<string>,
    slotsFromSubNode: Option<string>)

  type Registry = map<string, NodeDefinition>

  function EffectiveInputs(d: NodeDefinition, n: NodeSpec): Option<seq<InputSlot>> {
    if d.resolveSlots.None? then Some(d.inputs)
    else
      match d.resolveSlots.value(n)
      case Some(schema) => Some(schema.0)
      case None => None
  }

  function EffectiveOutputs(d: NodeDefinition, n: NodeSpec): Option<seq<OutputSlot>> {
    if d.resolveSlots.None? then Some(d.outputs)
    else
      match d.resolveSlots.value(n)
      case Some(schema) => Some(schema.1)
      case None => None
  }

  // ----- Runs -----

  /** The tables `run_graph` adds for node bodies that call other nodes directly. */
  datatype Resources = Resources(
    nodesById: map<Id, NodeSpec>, subNodes: map<(Id, string), seq<Id>>, payloads: map<Id, Value>)

  datatype Outcome =
    | Failed(error: string)
    | Done(outputs: map<Slot, Value>, children: Option<seq<seq<TraceRecord>>>)
  {
    /** A failed node produced nothing. */
    function Outputs(): map<Slot, Value> {
      if Done? then outputs else map[]
    }
  }

  datatype TraceRecord = TraceRecord(node: Id, inputs: Inputs, outcome: Outcome)
}
