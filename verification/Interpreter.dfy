/** The meaning of `run_graph` and of the node bodies that re-enter it: one recursive definition,
well-founded on how deeply loops are nested (backend/execution/engine.py, backend/nodes/loop.py,
backend/nodes/webhook_trigger.py). */
module Interpreter {
  import opened Digraph
  import opened Wrappers
  import opened Graph
  import opened Schedule
  import opened Rules
  import opened Validator
  import Connections

  /** Everything a run depends on besides the graph. */
  datatype World = World(
    reg: Registry, store: seq<Connections.Profile>, user: Option<string>, payloads: map<Id, Value>)
  {
    /** Connections as the engine's revalidation sees them, for a caller. */
    function Directory(caller: Option<string>): Connections.Directory {
      Connections.Directory(store, caller, map[])
    }
  }

  datatype RunOutcome = Raised | Finished(result: map<Id, Value>, trace: seq<TraceRecord>)

  // ----- Nesting depth -----

  function NodeDepth(n: NodeSpec): nat
    decreases n
  {
    if "sub_graph" in n.config && n.config["sub_graph"].Nested? then
      1 + MaxDepth(n.config["sub_graph"].graph.nodes)
    else 0
  }

  function MaxDepth(nodes: seq<NodeSpec>): nat
    decreases nodes
  {
    if nodes == [] then 0
    else
      var d, rest := NodeDepth(nodes[0]), MaxDepth(nodes[1..]);
      if d < rest then rest else d
  }

  function GraphDepth(g: GraphSpec): nat {
    MaxDepth(g.nodes)
  }

  lemma {:induction false} MemberDepth(nodes: seq<NodeSpec>, n: NodeSpec)
    requires n in nodes
    ensures NodeDepth(n) <= MaxDepth(nodes)
  {
    if nodes[0] != n {
      MemberDepth(nodes[1..], n);
    }
  }

  // ----- The plan of a graph -----

  /** The winning data edge of every slot: the last one listed. */
  function Incoming(edges: seq<EdgeSpec>): map<(Id, Slot), Port> {
    if edges == [] then map[]
    else
      var before, e := Incoming(edges[..|edges| - 1]), edges[|edges| - 1];
      if e.DataEdge? then before[(e.dst, e.dstSlot) := Port(e.src, e.srcSlot)] else before
  }

  function InputsOrNone(reg: Registry, n: NodeSpec): seq<InputSlot> {
    if n.typ !in reg then []
    else
      match EffectiveInputs(reg[n.typ], n)
      case Some(slots) => slots
      case None => []
  }

  function PlanOf(g: GraphSpec, reg: Registry): Plan {
    Plan(
      Without(NodeIds(g.nodes), SubNodeIds(g)),
      map id | id in NodesById(g.nodes) :: InputsOrNone(reg, NodesById(g.nodes)[id]),
      Incoming(g.edges),
      map id | id in NodesById(g.nodes) :: NodesById(g.nodes)[id].inputValues)
  }

  /** `resources["sub_nodes"]`: the sub-nodes wired into each root slot, in edge order. */
  function SubNodeTable(edges: seq<EdgeSpec>): map<(Id, string), seq<Id>> {
    if edges == [] then map[]
    else
      var before, e := SubNodeTable(edges[..|edges| - 1]), edges[|edges| - 1];
      if e.SubNodeEdge? then before[(e.dst, e.slot) := At(before, e.dst, e.slot) + [e.src]] else before
  }

  function ResourcesOf(w: World, g: GraphSpec): Resources {
    Resources(NodesById(g.nodes), SubNodeTable(g.edges), w.payloads)
  }

  // ----- The result of a run -----

  function ResultSlot(g: GraphSpec, reg: Registry, n: Id): Option<Slot> {
    if n in NodesById(g.nodes) && NodesById(g.nodes)[n].typ in reg then reg[NodesById(g.nodes)[n].typ].resultSlot
    else None
  }

  /** The engine reads the result slot of a node that succeeded without that input. */
  predicate LacksResult(g: GraphSpec, reg: Registry, r: TraceRecord) {
    r.outcome.Done? && ResultSlot(g, reg, r.node).Some? && ResultSlot(g, reg, r.node).value !in r.inputs
  }

  function ResultOf(g: GraphSpec, reg: Registry, trace: seq<TraceRecord>): map<Id, Value> {
    if trace == [] then map[]
    else
      var before, r := ResultOf(g, reg, trace[..|trace| - 1]), trace[|trace| - 1];
      if r.outcome.Done? && ResultSlot(g, reg, r.node).Some? && ResultSlot(g, reg, r.node).value in r.inputs then
        before[r.node := r.inputs[ResultSlot(g, reg, r.node).value]]
      else before
  }

  ghost function Conclude(g: GraphSpec, reg: Registry, trace: seq<TraceRecord>): RunOutcome {
    if exists i :: 0 <= i < |trace| && LacksResult(g, reg, trace[i]) then Raised
    else Finished(ResultOf(g, reg, trace), trace)
  }

  // ----- Loop configuration -----

  datatype LoopConfig = LoopConfig(graph: GraphSpec, maxIterations: nat, stop: Option<Slot>)

  /** The loop's config model: a graph, a positive bound (default 10), an optional stop slot. */
  function ParseLoop(config: map<string, ConfigValue>): (r: Option<LoopConfig>)
    ensures r.Some? ==> UniqueIds(r.value.graph) && r.value.maxIterations > 0
    ensures r.Some? ==> "sub_graph" in config && config["sub_graph"] == Nested(r.value.graph)
  {
    if "sub_graph" !in config || !config["sub_graph"].Nested? || !UniqueIds(config["sub_graph"].graph) then None
    else
      match (ParseBound(config), ParseStop(config))
      case (Some(bound), Some(stop)) => Some(LoopConfig(config["sub_graph"].graph, bound, stop))
      case _ => None
  }

  function ParseBound(config: map<string, ConfigValue>): (r: Option<nat>)
    ensures r.Some? ==> r.value > 0
  {
    if "max_iterations" !in config then Some(10)
    else
      match config["max_iterations"]
      case Plain(Number(n)) => if n > 0 then Some(n) else None
      case _ => None
  }

  function ParseStop(config: map<string, ConfigValue>): Option<Option<Slot>> {
    if "stop_condition_slot" !in config then Some(None)
    else
      match config["stop_condition_slot"]
      case Plain(Null) => Some(None)
      case Plain(Text(s)) => Some(Some(s))
      case _ => None
  }

  function EntryIds(nodes: seq<NodeSpec>): seq<Id> {
    if nodes == [] then []
    else if nodes[0].typ == "text_input" then [nodes[0].id] + EntryIds(nodes[1..])
    else EntryIds(nodes[1..])
  }

  function SeedNode(n: NodeSpec, entry: Id, v: Value): NodeSpec {
    if n.id == entry then n.(config := n.config["value" := Plain(v)]) else n
  }

  /** A copy of the sub-graph with the loop's value written into its entry node. */
  function Seed(g: GraphSpec, entry: Id, v: Value): (r: GraphSpec)
    ensures |r.nodes| == |g.nodes| && r.edges == g.edges
    ensures forall i | 0 <= i < |g.nodes| :: r.nodes[i] == SeedNode(g.nodes[i], entry, v)
  {
    g.(nodes := seq(|g.nodes|, i requires 0 <= i < |g.nodes| => SeedNode(g.nodes[i], entry, v)))
  }

  lemma {:induction false} SameDepths(a: seq<NodeSpec>, b: seq<NodeSpec>)
    requires |a| == |b| && forall i | 0 <= i < |a| :: NodeDepth(a[i]) == NodeDepth(b[i])
    ensures MaxDepth(a) == MaxDepth(b)
  {
    if a != [] {
      SameDepths(a[1..], b[1..]);
    }
  }

  lemma SeedDepth(g: GraphSpec, entry: Id, v: Value)
    ensures GraphDepth(Seed(g, entry, v)) == GraphDepth(g)
  {
    SameDepths(Seed(g, entry, v).nodes, g.nodes);
  }

  lemma SeedUnique(g: GraphSpec, entry: Id, v: Value)
    requires UniqueIds(g)
    ensures UniqueIds(Seed(g, entry, v))
  {
    assert NodeIds(Seed(g, entry, v).nodes) == NodeIds(g.nodes);
  }

  /** Some record of the trace fired the slot. */
  predicate Fired(stop: Option<Slot>, trace: seq<TraceRecord>) {
    stop.Some? && exists i :: 0 <= i < |trace| && stop.value in trace[i].outcome.Outputs()
  }

  ghost function OnlyValue(result: map<Id, Value>): Option<Value> {
    if k :| result.Keys == {k} then Some(result[k]) else None
  }

  /** What a trigger was called with. */
  function PayloadOf(w: World, n: NodeSpec): Value {
    if n.id in w.payloads then w.payloads[n.id] else Object(map[])
  }

  // ----- The interpreter -----

  ghost function RunGraph(w: World, g: GraphSpec): RunOutcome
    decreases GraphDepth(g), 4
  {
    if Valid(g, w.reg, w.Directory(w.user)) then
      Conclude(g, w.reg, Run(PlanOf(g, w.reg), NodeExec(w, g)).trace)
    else Raised
  }

  /** The node bodies of a graph, as the scheduler calls them. */
  ghost function NodeExec(w: World, g: GraphSpec): Exec
    decreases GraphDepth(g), 3
  {
    (id, inputs) =>
      if id in NodesById(g.nodes) then ExecuteNode(w, g, NodesById(g.nodes)[id], inputs)
      else Failed("no such node")
  }

  ghost function ExecuteNode(w: World, g: GraphSpec, n: NodeSpec, inputs: Inputs): Outcome
    requires n in g.nodes
    decreases GraphDepth(g), 2
  {
    if n.typ !in w.reg then Failed("unregistered type")
    else
      match w.reg[n.typ].body
      case Primitive(run) => run(n, inputs, ResourcesOf(w, g))
      case LoopBody =>
        MemberDepth(g.nodes, n);
        ExecuteLoop(w, n, inputs)
      case WebhookBody => ExecuteWebhook(w, g, n)
  }

  /** Runs the one connected adapter on this trigger's payload. */
  ghost function ExecuteWebhook(w: World, g: GraphSpec, n: NodeSpec): Outcome
    decreases GraphDepth(g), 1
  {
    var adapters := At(SubNodeTable(g.edges), n.id, "trigger_adapter");
    if |adapters| != 1 then Failed("expected exactly one trigger_adapter")
    else if adapters[0] !in NodesById(g.nodes) then Failed("no such node")
    else
      var adapter := NodesById(g.nodes)[adapters[0]];
      var inputs := map["payload" := PayloadOf(w, n)];
      if adapter.typ !in w.reg then Failed("unregistered type")
      else
        match w.reg[adapter.typ].body
        case Primitive(run) => run(adapter, inputs, ResourcesOf(w, g))
        case LoopBody =>
          MemberDepth(g.nodes, adapter);
          ExecuteLoop(w, adapter, inputs)
        case WebhookBody => Failed("a trigger is not an adapter")
  }

  ghost function ExecuteLoop(w: World, n: NodeSpec, inputs: Inputs): Outcome
    decreases NodeDepth(n), 0
  {
    match ParseLoop(n.config)
    case None => Failed("invalid config")
    case Some(cfg) =>
      if !Valid(cfg.graph, w.reg, w.Directory(None)) then Failed("loop sub_graph is invalid")
      else if |EntryIds(cfg.graph.nodes)| != 1 then Failed("loop sub_graph needs one text_input")
      else if "value" !in inputs then Failed("missing input")
      else Iterate(w, cfg, EntryIds(cfg.graph.nodes)[0], inputs["value"], 0, [])
  }

  /** The iterations from the i-th on. */
  ghost function Iterate(w: World, cfg: LoopConfig, entry: Id, v: Value, i: nat,
                         children: seq<seq<TraceRecord>>): Outcome
    decreases GraphDepth(cfg.graph), 5, cfg.maxIterations - i
  {
    if i >= cfg.maxIterations then Done(map["value" := v], Some(children))
    else
      SeedDepth(cfg.graph, entry, v);
      match RunGraph(w, Seed(cfg.graph, entry, v))
      case Raised => Failed("loop iteration failed")
      case Finished(result, trace) =>
        match OnlyValue(result)
        case None => Failed("loop sub_graph must produce exactly one result value")
        case Some(next) =>
          if Fired(cfg.stop, trace) then Done(map["value" := next], Some(children + [trace]))
          else Iterate(w, cfg, entry, next, i + 1, children + [trace])
  }
}
