/** What validation buys a run: the theorems about plans, for every graph `validate_graph` accepts. */
module Validated {
  import opened Digraph
  import opened Wrappers
  import opened Graph
  import opened Schedule
  import opened Denotation
  import opened Soundness
  import opened Refinement
  import opened Rules
  import opened Validator
  import opened Interpreter
  import opened Bodies
  import Connections
  import Causes
  import Timing

  // ----- The plan is the graph's -----

  /** Edge i is the last data edge into this slot. */
  ghost predicate LastInto(edges: seq<EdgeSpec>, n: Id, slot: Slot, i: nat) {
    && i < |edges| && edges[i].DataEdge? && edges[i].dst == n && edges[i].dstSlot == slot
    && forall j | i < j < |edges| :: !(edges[j].DataEdge? && edges[j].dst == n && edges[j].dstSlot == slot)
  }

  ghost predicate LastFeeds(edges: seq<EdgeSpec>, n: Id, slot: Slot, i: nat, port: Port) {
    LastInto(edges, n, slot, i) && port == Port(edges[i].src, edges[i].srcSlot)
  }

  /** The edge that feeds a slot is the last one listed. */
  lemma {:induction false} IncomingIsLast(edges: seq<EdgeSpec>, n: Id, slot: Slot) returns (i: nat)
    requires (n, slot) in Incoming(edges)
    ensures LastFeeds(edges, n, slot, i, Incoming(edges)[(n, slot)])
  {
    var front, last := edges[..|edges| - 1], edges[|edges| - 1];
    if last.DataEdge? && last.dst == n && last.dstSlot == slot {
      i := |edges| - 1;
    } else {
      i := IncomingIsLast(front, n, slot);
      assert forall j | 0 <= j < |front| :: edges[j] == front[j];
    }
  }

  /** The plan is read off the graph: the nodes that no sub-node edge leaves, in list order; for each
      node the input slots its registered type gives it (none if they do not resolve) and its literals;
      for each slot with a data edge the last one listed. */
  ghost predicate IsPlan(g: GraphSpec, reg: Registry, p: Plan) {
    && (forall id :: id in p.queue <==> exists n :: n in g.nodes && n.id == id && !IsSubNode(g, id))
    && (forall a, b | After(p.queue, a, b) :: After(NodeIds(g.nodes), a, b))
    && (forall n | n in g.nodes :: HasSlots(reg, n, p.Slots(n.id)) && p.Literals(n.id) == n.inputValues)
    && (forall n, slot :: (n, slot) in p.incoming <==> HasEdgeInto(g, n, slot))
    && forall n, slot | (n, slot) in p.incoming ::
         exists i: nat :: LastFeeds(g.edges, n, slot, i, p.incoming[(n, slot)])
  }

  ghost predicate HasSlots(reg: Registry, n: NodeSpec, slots: seq<InputSlot>) {
    && (n.typ in reg ==> forall schema | HasSchema(reg[n.typ], n, schema) :: slots == schema.0)
    && ((n.typ !in reg || forall schema :: !HasSchema(reg[n.typ], n, schema)) ==> slots == [])
  }

  lemma InputsAreSlots(reg: Registry, n: NodeSpec)
    ensures HasSlots(reg, n, InputsOrNone(reg, n))
  {
    hide HasSchema, EffectiveInputs, EffectiveOutputs;
    if n.typ in reg {
      var d := reg[n.typ];
      SchemaIsEffective(d, n);
      forall schema | HasSchema(d, n, schema) ensures InputsOrNone(reg, n) == schema.0 {
        assert schema == (schema.0, schema.1);
      }
      if EffectiveInputs(d, n).Some? {
        assert HasSchema(d, n, (EffectiveInputs(d, n).value, EffectiveOutputs(d, n).value));
      }
    }
  }

  lemma QueuedIsScheduled(g: GraphSpec, reg: Registry, id: Id)
    ensures id in PlanOf(g, reg).queue <==> exists n :: n in g.nodes && n.id == id && !IsSubNode(g, id)
  {
    var ids := NodeIds(g.nodes);
    if id in PlanOf(g, reg).queue {
      var i :| 0 <= i < |ids| && ids[i] == id;
      assert g.nodes[i] in g.nodes;
    }
    if n :| n in g.nodes && n.id == id && !IsSubNode(g, id) {
      var i :| 0 <= i < |g.nodes| && g.nodes[i] == n;
      assert ids[i] == id;
    }
  }

  lemma PlanIsOfGraph(g: GraphSpec, reg: Registry)
    requires UniqueIds(g)
    ensures IsPlan(g, reg, PlanOf(g, reg))
  {
    hide HasSlots, InputsOrNone, LastFeeds, HasEdgeInto, IsSubNode, Incoming, NodesById, UniqueIds, PlanOf;
    var p := PlanOf(g, reg);
    PlanIncoming(g, reg);
    forall id ensures id in p.queue <==> exists n :: n in g.nodes && n.id == id && !IsSubNode(g, id) {
      QueuedIsScheduled(g, reg, id);
    }
    forall a, b | After(p.queue, a, b) ensures After(NodeIds(g.nodes), a, b) {
      QueueKeepsOrder(g, reg, a, b);
    }
    forall n | n in g.nodes ensures HasSlots(reg, n, p.Slots(n.id)) && p.Literals(n.id) == n.inputValues {
      PlanOfNode(g, reg, n);
      InputsAreSlots(reg, n);
    }
    forall n, slot ensures (n, slot) in p.incoming <==> HasEdgeInto(g, n, slot) {
      FedByEdge(g, n, slot);
    }
    forall n, slot | (n, slot) in p.incoming
      ensures exists i: nat :: LastFeeds(g.edges, n, slot, i, p.incoming[(n, slot)])
    {
      var i := IncomingIsLast(g.edges, n, slot);
    }
  }

  lemma QueueKeepsOrder(g: GraphSpec, reg: Registry, a: Id, b: Id)
    requires After(PlanOf(g, reg).queue, a, b)
    ensures After(NodeIds(g.nodes), a, b)
  {
    AfterWithout(NodeIds(g.nodes), SubNodeIds(g), a, b);
  }

  lemma PlanOfNode(g: GraphSpec, reg: Registry, n: NodeSpec)
    requires UniqueIds(g) && n in g.nodes
    ensures PlanOf(g, reg).Slots(n.id) == InputsOrNone(reg, n) && PlanOf(g, reg).Literals(n.id) == n.inputValues
  {
    hide UniqueIds, InputsOrNone, Incoming;
    NodesByIdUnique(g, n);
  }

  lemma FedByEdge(g: GraphSpec, n: Id, slot: Slot)
    ensures (n, slot) in Incoming(g.edges) <==> HasEdgeInto(g, n, slot)
  {
    hide Incoming;
    if (n, slot) in Incoming(g.edges) {
      var e := IncomingIsEdge(g.edges, (n, slot));
    }
    if HasEdgeInto(g, n, slot) {
      EdgeIntoIsIncoming(g, n, slot);
    }
  }

  lemma {:induction false} IncomingIsEdge(edges: seq<EdgeSpec>, k: (Id, Slot)) returns (e: EdgeSpec)
    requires k in Incoming(edges)
    ensures e in edges && e.DataEdge? && k == (e.dst, e.dstSlot) && Incoming(edges)[k] == Port(e.src, e.srcSlot)
  {
    var last := edges[|edges| - 1];
    if last.DataEdge? && k == (last.dst, last.dstSlot) {
      e := last;
    } else {
      e := IncomingIsEdge(edges[..|edges| - 1], k);
    }
  }

  lemma {:induction false} EdgeIsIncoming(edges: seq<EdgeSpec>, e: EdgeSpec)
    requires e in edges && e.DataEdge?
    ensures (e.dst, e.dstSlot) in Incoming(edges)
  {
    var front, last := edges[..|edges| - 1], edges[|edges| - 1];
    assert edges == front + [last];
    if e != last {
      EdgeIsIncoming(front, e);
    }
  }

  lemma DataEdgeIsArc(g: GraphSpec, e: EdgeSpec)
    requires EdgesKnown(g) && e in g.edges && e.DataEdge?
    ensures Joined(IdSet(g), Arcs(DataEdges(g.edges)), e.src, e.dst)
  {
    var data := DataEdges(g.edges);
    var i :| 0 <= i < |data| && data[i] == e;
    assert Arcs(data)[i] == Arc(e.src, e.dst);
  }

  /** The cycle check supplies the well-founded order of the evaluator. */
  lemma ValidRanks(g: GraphSpec, reg: Registry, d: Connections.Directory) returns (rank: Rank)
    requires Valid(g, reg, d)
    ensures Ranks(PlanOf(g, reg), rank)
  {
    hide Acyclic, EdgesKnown;
    rank := AcyclicHasRanking(IdSet(g), Arcs(DataEdges(g.edges)));
    forall k | k in Incoming(g.edges) ensures rank(Incoming(g.edges)[k].node) < rank(k.0) {
      var e := IncomingIsEdge(g.edges, k);
      DataEdgeIsArc(g, e);
    }
  }

  lemma QueuedNode(g: GraphSpec, reg: Registry, n: Id)
    requires n in PlanOf(g, reg).queue
    ensures n in NodesById(g.nodes) && NodesById(g.nodes)[n] in g.nodes && NodesById(g.nodes)[n].id == n
    ensures n !in SubNodeIds(g)
    ensures PlanOf(g, reg).Slots(n) == InputsOrNone(reg, NodesById(g.nodes)[n])
    ensures PlanOf(g, reg).Literals(n) == NodesById(g.nodes)[n].inputValues
  {
    assert n in NodeIds(g.nodes);
    var i :| 0 <= i < |g.nodes| && NodeIds(g.nodes)[i] == n;
    assert g.nodes[i] in g.nodes;
  }

  /** A required slot of a scheduled node is fed. */
  lemma RequiredIsFed(g: GraphSpec, reg: Registry, n: NodeSpec, s: InputSlot)
    requires TypesRegistered(g, reg) && InputsCovered(g, reg) && n in g.nodes && n.id !in SubNodeIds(g)
    requires s in InputsOrNone(reg, n) && s.required
    ensures (n.id, s.name) in Incoming(g.edges) || s.name in n.inputValues
  {
    hide HasEdgeInto, Incoming;
    if s.name !in n.inputValues {
      assert !IsSubNode(g, n.id);
      assert HasEdgeInto(g, n.id, s.name);
      EdgeIntoIsIncoming(g, n.id, s.name);
    }
  }

  lemma EdgeIntoIsIncoming(g: GraphSpec, n: Id, slot: Slot)
    requires HasEdgeInto(g, n, slot)
    ensures (n, slot) in Incoming(g.edges)
  {
    var e :| e in g.edges && e.DataEdge? && e.dst == n && e.dstSlot == slot;
    EdgeIsIncoming(g.edges, e);
  }

  /** The required-input check covers every scheduled node. */
  lemma ValidCovers(g: GraphSpec, reg: Registry, d: Connections.Directory)
    requires Valid(g, reg, d)
    ensures Covered(PlanOf(g, reg))
  {
    hide PlanOf, InputsCovered, TypesMatch, DataAcyclic, ConfigsOk, SubNodesOk, EdgesKnown, SubNodeIds, NodesById,
      InputsOrNone;
    var p := PlanOf(g, reg);
    forall n, s | n in p.queue && s in p.Slots(n) && s.required
      ensures (n, s.name) in p.incoming || s.name in p.Literals(n)
    {
      QueuedNode(g, reg, n);
      PlanIncoming(g, reg);
      RequiredIsFed(g, reg, NodesById(g.nodes)[n], s);
    }
  }

  lemma PlanIncoming(g: GraphSpec, reg: Registry)
    ensures PlanOf(g, reg).incoming == Incoming(g.edges)
  {
  }

  lemma QueueDistinct(g: GraphSpec, reg: Registry)
    requires UniqueIds(g)
    ensures Distinct(PlanOf(g, reg).queue)
  {
    WithoutDistinct(NodeIds(g.nodes), SubNodeIds(g));
  }

  ghost predicate Accepts(w: World, g: GraphSpec) {
    UniqueIds(g) && Valid(g, w.reg, Connections.Directory(w.store, w.user, map[]))
  }

  function Trace(w: World, g: GraphSpec, exec: Exec): seq<TraceRecord> {
    Run(PlanOf(g, w.reg), exec).trace
  }

  /** A node body called here is the registered one, on these very inputs; the plan is the graph's;
      and the run of the graph is then its meaning: it records exactly the nodes that the recursive
      evaluator fires, each once, with exactly the evaluator's inputs and outcome; it raises exactly if
      some fired node that succeeded has not received the input its type declares as the result; and
      otherwise its trace is this one and its result holds exactly what the fired nodes yield. */
  ghost predicate RunIsMeaning(w: World, g: GraphSpec, rank: Rank)
    requires Ranks(PlanOf(g, w.reg), rank)
  {
    var p, exec := PlanOf(g, w.reg), NodeExec(w, g);
    && IsPlan(g, w.reg, p) && RunsBodies(w, g, exec)
    && ComputesMeaning(p, exec, rank, Trace(w, g, exec))
    && (RunGraph(w, g).Raised? <==> SomeNodeRaises(g, w.reg, p, exec, rank))
    && (RunGraph(w, g).Finished? ==>
          RunGraph(w, g).trace == Trace(w, g, exec) && ResultIsMeaning(g, w.reg, p, exec, rank, RunGraph(w, g).result))
  }

  lemma TraceDecides(w: World, g: GraphSpec, rank: Rank)
    requires Accepts(w, g) && Ranks(PlanOf(g, w.reg), rank)
    requires ComputesMeaning(PlanOf(g, w.reg), NodeExec(w, g), rank, Trace(w, g, NodeExec(w, g)))
    ensures RunIsMeaning(w, g, rank)
  {
    hide Valid, UniqueIds, PlanOf, NodeExec, Run, Eval, ComputesMeaning, ResultIsMeaning, IsPlan, RunsBodies;
    var p, exec := PlanOf(g, w.reg), NodeExec(w, g);
    PlanIsOfGraph(g, w.reg);
    NodeExecRunsBodies(w, g);
    RaisesByMeaning(g, w.reg, p, exec, rank, Run(p, exec).trace);
    ResultByMeaning(g, w.reg, p, exec, rank, Run(p, exec).trace);
  }

  /** Nothing but an accepted graph runs to an end, and what it records are the registered bodies'
      outcomes on the recorded inputs. */
  lemma RecordsAreOfBodies(w: World, g: GraphSpec, r: TraceRecord)
    requires UniqueIds(g) && RunGraph(w, g).Finished? && r in RunGraph(w, g).trace
    ensures Accepts(w, g)
    ensures exists n :: n in g.nodes && n.id == r.node && !IsSubNode(g, n.id) && BodyDoes(w, g, n, r.inputs, r.outcome)
  {
    hide Valid, UniqueIds, PlanOf, NodeExec, Run, Eval, IsPlan, BodyDoes, IsSubNode, Distinct, Conclude, RunGraph;
    FinishedIsAccepted(w, g);
    var p, exec := PlanOf(g, w.reg), NodeExec(w, g);
    var rank := ValidRanks(g, w.reg, w.Directory(w.user));
    QueueDistinct(g, w.reg);
    RunIsFinal(p, exec, rank);
    RecordsFire(p, exec, rank, Run(p, exec), r);
    QueuedIsScheduled(g, w.reg, r.node);
    var n :| n in g.nodes && n.id == r.node && !IsSubNode(g, n.id);
    NodeExecRunsBodies(w, g);
    assert BodyDoes(w, g, n, r.inputs, exec(n.id, r.inputs));
  }

  lemma FinishedIsAccepted(w: World, g: GraphSpec)
    requires UniqueIds(g) && RunGraph(w, g).Finished?
    ensures Accepts(w, g) && RunGraph(w, g).trace == Run(PlanOf(g, w.reg), NodeExec(w, g)).trace
  {
    hide Valid, UniqueIds, PlanOf, NodeExec, Run;
  }

  lemma RecordsFire(p: Plan, exec: Exec, rank: Rank, st: State, r: TraceRecord)
    requires Ranks(p, rank) && Final(p, exec, rank, st) && r in st.trace
    ensures r.node in p.queue && r.outcome == exec(r.node, r.inputs)
  {
    var i :| 0 <= i < |st.trace| && st.trace[i] == r;
    assert Eval(p, exec, rank, st.trace[i].node) == Ran(r.inputs, r.outcome);
  }

  /** A validated graph whose optional slots are shielded: wherever the node list puts the sources of
      required slots, its run is its meaning. */
  lemma ShieldedRunIsMeaning(w: World, g: GraphSpec, rank: Rank)
    requires Accepts(w, g) && Ranks(PlanOf(g, w.reg), rank) && Shielded(PlanOf(g, w.reg), rank)
    ensures RunIsMeaning(w, g, rank)
  {
    hide Valid, UniqueIds, PlanOf, NodeExec, Run, Eval, ComputesMeaning, Distinct, Covered, Shielded, RunIsMeaning;
    QueueDistinct(g, w.reg);
    ValidCovers(g, w.reg, w.Directory(w.user));
    ShieldedComputesMeaning(PlanOf(g, w.reg), NodeExec(w, g), rank);
    TraceDecides(w, g, rank);
  }

  /** A validated graph whose edge-fed slots are all required: whatever the order of its node list,
      its run is its meaning. */
  lemma ValidatedRunIsMeaning(w: World, g: GraphSpec) returns (rank: Rank)
    requires Accepts(w, g) && EdgesRequired(PlanOf(g, w.reg))
    ensures Ranks(PlanOf(g, w.reg), rank) && RunIsMeaning(w, g, rank)
  {
    hide Valid, UniqueIds, PlanOf, RunIsMeaning;
    rank := ValidRanks(g, w.reg, w.Directory(w.user));
    ShieldedRunIsMeaning(w, g, rank);
  }

  /** The type of node n names this input slot as the run's result. */
  ghost predicate ReportsSlot(g: GraphSpec, reg: Registry, n: Id, slot: Slot) {
    exists m :: m in g.nodes && m.id == n && m.typ in reg && reg[m.typ].resultSlot == Some(slot)
  }

  lemma ResultSlotMeans(g: GraphSpec, reg: Registry, n: Id)
    requires UniqueIds(g)
    ensures forall slot :: ResultSlot(g, reg, n) == Some(slot) <==> ReportsSlot(g, reg, n, slot)
  {
    hide UniqueIds, NodesById;
    forall slot ensures ResultSlot(g, reg, n) == Some(slot) <==> ReportsSlot(g, reg, n, slot) {
      if m :| m in g.nodes && m.id == n && m.typ in reg && reg[m.typ].resultSlot == Some(slot) {
        NodesByIdUnique(g, m);
      }
    }
  }

  /** A node that fired so contributes x to the result. */
  ghost predicate Yields(g: GraphSpec, reg: Registry, n: Id, v: Verdict, x: Value) {
    exists slot :: ReportsSlot(g, reg, n, slot) && v.Ran? && v.outcome.Done? && slot in v.inputs && v.inputs[slot] == x
  }

  /** The result holds exactly what the fired nodes yield. */
  ghost predicate ResultIsMeaning(g: GraphSpec, reg: Registry, p: Plan, exec: Exec, rank: Rank, result: map<Id, Value>)
    requires Ranks(p, rank)
  {
    forall n, x :: n in result && result[n] == x <==> n in p.queue && Yields(g, reg, n, Eval(p, exec, rank, n), x)
  }

  /** What the engine takes from a node. */
  function Yield(g: GraphSpec, reg: Registry, n: Id, v: Verdict): Option<Value> {
    if v.Ran? && v.outcome.Done? && ResultSlot(g, reg, n).Some? && ResultSlot(g, reg, n).value in v.inputs
    then Some(v.inputs[ResultSlot(g, reg, n).value])
    else None
  }

  lemma YieldMeans(g: GraphSpec, reg: Registry, n: Id, v: Verdict)
    requires UniqueIds(g)
    ensures forall x :: Yield(g, reg, n, v) == Some(x) <==> Yields(g, reg, n, v, x)
  {
    hide UniqueIds, ResultSlot, ReportsSlot;
    ResultSlotMeans(g, reg, n);
  }

  lemma {:induction false} ResultOfRecords(g: GraphSpec, reg: Registry, p: Plan, exec: Exec, rank: Rank,
                                           trace: seq<TraceRecord>)
    requires Ranks(p, rank)
    requires forall i | 0 <= i < |trace| :: Eval(p, exec, rank, trace[i].node) == Ran(trace[i].inputs, trace[i].outcome)
    ensures forall n :: n in ResultOf(g, reg, trace) <==>
                          Traced(trace, n) && Yield(g, reg, n, Eval(p, exec, rank, n)).Some?
    ensures forall n | n in ResultOf(g, reg, trace) ::
              Yield(g, reg, n, Eval(p, exec, rank, n)) == Some(ResultOf(g, reg, trace)[n])
  {
    hide Eval, ResultSlot;
    if trace != [] {
      var front, r := trace[..|trace| - 1], trace[|trace| - 1];
      ResultOfRecords(g, reg, p, exec, rank, front);
      forall n ensures Traced(trace, n) <==> Traced(front, n) || n == r.node {
        TracedAppend(front, r, n);
        assert front + [r] == trace;
      }
    }
  }

  lemma TracedAppend(front: seq<TraceRecord>, r: TraceRecord, n: Id)
    ensures Traced(front + [r], n) <==> Traced(front, n) || n == r.node
  {
    var trace := front + [r];
    if Traced(front, n) {
      var i :| 0 <= i < |front| && front[i].node == n;
      assert trace[i].node == n;
    }
    if n == r.node {
      assert trace[|front|].node == n;
    }
  }

  lemma ResultByMeaning(g: GraphSpec, reg: Registry, p: Plan, exec: Exec, rank: Rank, trace: seq<TraceRecord>)
    requires UniqueIds(g) && Ranks(p, rank) && ComputesMeaning(p, exec, rank, trace)
    ensures ResultIsMeaning(g, reg, p, exec, rank, ResultOf(g, reg, trace))
  {
    hide UniqueIds, Eval, ResultSlot, ResultOf, Yield, Yields;
    ResultOfRecords(g, reg, p, exec, rank, trace);
    forall n, x
      ensures (n in ResultOf(g, reg, trace) && ResultOf(g, reg, trace)[n] == x)
         <==> (n in p.queue && Yields(g, reg, n, Eval(p, exec, rank, n), x))
    {
      TracedFired(p, exec, rank, trace, n);
      YieldMeans(g, reg, n, Eval(p, exec, rank, n));
      OnlyFiredYield(g, reg, n, Eval(p, exec, rank, n));
    }
  }

  lemma TracedFired(p: Plan, exec: Exec, rank: Rank, trace: seq<TraceRecord>, n: Id)
    requires Ranks(p, rank) && ComputesMeaning(p, exec, rank, trace)
    ensures Traced(trace, n) <==> n in p.queue && Eval(p, exec, rank, n).Ran?
  {
    hide Eval;
    if Traced(trace, n) {
      var i :| 0 <= i < |trace| && trace[i].node == n;
      assert trace[i].node in p.queue;
    }
  }

  lemma OnlyFiredYield(g: GraphSpec, reg: Registry, n: Id, v: Verdict)
    ensures Yield(g, reg, n, v).Some? ==> v.Ran?
  {
  }

  /** A node that fired so makes the run raise: it succeeded without the input it reports. */
  ghost predicate MeansRaise(g: GraphSpec, reg: Registry, n: Id, v: Verdict) {
    exists slot :: ReportsSlot(g, reg, n, slot) && v.Ran? && v.outcome.Done? && slot !in v.inputs
  }

  lemma LackingMeansRaise(g: GraphSpec, reg: Registry, r: TraceRecord)
    requires UniqueIds(g)
    ensures LacksResult(g, reg, r) <==> MeansRaise(g, reg, r.node, Ran(r.inputs, r.outcome))
  {
    hide UniqueIds, ResultSlot, ReportsSlot;
    ResultSlotMeans(g, reg, r.node);
  }

  ghost predicate SomeNodeRaises(g: GraphSpec, reg: Registry, p: Plan, exec: Exec, rank: Rank)
    requires Ranks(p, rank)
  {
    exists n :: n in p.queue && MeansRaise(g, reg, n, Eval(p, exec, rank, n))
  }

  lemma RaisesByMeaning(g: GraphSpec, reg: Registry, p: Plan, exec: Exec, rank: Rank, trace: seq<TraceRecord>)
    requires UniqueIds(g) && Ranks(p, rank) && ComputesMeaning(p, exec, rank, trace)
    ensures Conclude(g, reg, trace).Raised? <==> SomeNodeRaises(g, reg, p, exec, rank)
  {
    hide UniqueIds, Eval, LacksResult, MeansRaise;
    if i :| 0 <= i < |trace| && LacksResult(g, reg, trace[i]) {
      LackingMeansRaise(g, reg, trace[i]);
      assert MeansRaise(g, reg, trace[i].node, Eval(p, exec, rank, trace[i].node));
    }
    if n :| n in p.queue && MeansRaise(g, reg, n, Eval(p, exec, rank, n)) {
      OnlyFiredRaise(g, reg, n, Eval(p, exec, rank, n));
      assert Traced(trace, n);
      var i :| 0 <= i < |trace| && trace[i].node == n;
      LackingMeansRaise(g, reg, trace[i]);
    }
  }

  lemma OnlyFiredRaise(g: GraphSpec, reg: Registry, n: Id, v: Verdict)
    requires MeansRaise(g, reg, n, v)
    ensures v.Ran?
  {
  }

  // ----- Optional slots -----

  /** With optional slots, a validated graph in a safe order runs to the end: nothing is left pending,
      and its run is its meaning. */
  lemma OrderedRunIsMeaning(w: World, g: GraphSpec) returns (rank: Rank)
    requires Accepts(w, g) && OrderSafe(PlanOf(g, w.reg))
    ensures Ranks(PlanOf(g, w.reg), rank) && RunIsMeaning(w, g, rank)
    ensures Run(PlanOf(g, w.reg), NodeExec(w, g)).pending == []
  {
    hide Valid, UniqueIds, PlanOf, NodeExec, Run, OrderSafe, Covered, Distinct, RunIsMeaning, ComputesMeaning;
    rank := ValidRanks(g, w.reg, w.Directory(w.user));
    QueueDistinct(g, w.reg);
    ValidCovers(g, w.reg, w.Directory(w.user));
    SafeOrderComputesMeaning(PlanOf(g, w.reg), NodeExec(w, g), rank);
    TraceDecides(w, g, rank);
  }

  /** Data edges follow the node list and none leaves a sub-node. */
  ghost predicate ListedInOrder(g: GraphSpec, reg: Registry) {
    forall e | e in g.edges && e.DataEdge? ::
      e.src !in SubNodeIds(g) && !After(PlanOf(g, reg).queue, e.dst, e.src)
  }

  /** A topologically ordered list is in a safe order. */
  lemma OrderedIsSafe(g: GraphSpec, reg: Registry, d: Connections.Directory)
    requires Valid(g, reg, d) && ListedInOrder(g, reg)
    ensures OrderSafe(PlanOf(g, reg))
  {
    hide InputsCovered, TypesMatch, DataAcyclic, ConfigsOk, SubNodesOk;
    var p := PlanOf(g, reg);
    forall n, s | n in p.queue && s in p.Slots(n) && (n, s.name) in p.incoming ensures EdgeSafe(p, n, s) {
      var e := IncomingIsEdge(g.edges, (n, s.name));
      assert e.src in IdSet(g);
      assert e.src in NodeIds(g.nodes);
    }
  }

  /** In a run of a validated graph every scheduled node without a record was starved along winning
      edges by a node that ran dry or by one that is never scheduled. */
  lemma ValidatedSkipHasCause(w: World, g: GraphSpec, n: Id) returns (path: seq<Port>)
    requires Accepts(w, g) && n in PlanOf(g, w.reg).queue && !Traced(Trace(w, g, NodeExec(w, g)), n)
    ensures Causes.CausedBy(PlanOf(g, w.reg), Trace(w, g, NodeExec(w, g)), n, path)
  {
    hide Valid, PlanOf, NodeExec, Run, Causes.CausedBy;
    var p, exec := PlanOf(g, w.reg), NodeExec(w, g);
    var rank := ValidRanks(g, w.reg, w.Directory(w.user));
    QueueDistinct(g, w.reg);
    ValidCovers(g, w.reg, w.Directory(w.user));
    RunIsFinal(p, exec, rank);
    path := Causes.SkipHasCause(p, exec, rank, Run(p, exec), n);
  }

  /** The rounds that `run_graph` announces for a validated graph whose edge-fed slots are required:
      none is empty, together they are the trace, and each node stands in the round of its longest
      chain of winning edges. */
  lemma AnnouncedAreEarliest(w: World, g: GraphSpec, announced: seq<seq<Id>>) returns (rank: Rank)
    requires Accepts(w, g) && EdgesRequired(PlanOf(g, w.reg))
    requires announced == Run(PlanOf(g, w.reg), NodeExec(w, g)).starts
    ensures Ranks(PlanOf(g, w.reg), rank)
    ensures forall q | 0 <= q < |announced| :: announced[q] != []
    ensures forall q, i | 0 <= q < |announced| && 0 <= i < |announced[q]| ::
              Timing.Height(PlanOf(g, w.reg), rank, announced[q][i]) == q
    ensures Timing.Flatten(announced) == Timing.TraceIds(Trace(w, g, NodeExec(w, g)))
  {
    hide Valid, UniqueIds, PlanOf, NodeExec, Run, Timing.Height, Timing.Flatten;
    rank := ValidRanks(g, w.reg, w.Directory(w.user));
    QueueDistinct(g, w.reg);
    Timing.EarliestRounds(PlanOf(g, w.reg), NodeExec(w, g), rank);
  }
}
