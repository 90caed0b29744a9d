/** Validated graphs that the round loop leaves early with a node still to run: the exit at
backend/execution/engine.py:182-185, which the comment there holds to be unreachable. */
module Stranding {
  import opened Wrappers
  import opened Digraph
  import opened Graph
  import opened Schedule
  import opened Denotation
  import opened Soundness
  import opened Rules
  import opened Validator
  import opened Interpreter
  import opened Validated

  /** Three names: `last` optionally wants a value of `middle`, which needs one of `source`. */
  datatype Names3 = Names3(last: Id, middle: Id, source: Id)
  {
    predicate Apart() {
      last != middle && middle != source && last != source
    }
  }

  const IN: Slot := "in"
  const OUT: Slot := "out"
  const WANTS := InputSlot(IN, SlotType(TEXT, None), false)
  const NEEDS := InputSlot(IN, SlotType(TEXT, None), true)
  const GIVES := OutputSlot(OUT, SlotType(TEXT, None))

  function Fails(inputs: seq<InputSlot>, outputs: seq<OutputSlot>): NodeDefinition {
    NodeDefinition(inputs, outputs, _ => true, Primitive((_, _, _) => Failed("")), None, None, map[], None, None)
  }

  function Types(x: Names3): Registry {
    map[x.source := Fails([], [GIVES]), x.middle := Fails([NEEDS], [GIVES]), x.last := Fails([WANTS], [])]
  }

  function Node(id: Id): NodeSpec {
    NodeSpec(id, id, map[], map[])
  }

  function Needed(x: Names3): EdgeSpec {
    DataEdge(x.source, OUT, x.middle, IN)
  }

  function Wanted(x: Names3): EdgeSpec {
    DataEdge(x.middle, OUT, x.last, IN)
  }

  /** `last` is listed before `middle`. */
  function Backwards(x: Names3): GraphSpec {
    GraphSpec([Node(x.last), Node(x.middle), Node(x.source)], [Needed(x), Wanted(x)])
  }

  function WorldOf(x: Names3): World {
    World(Types(x), [], None, map[])
  }

  lemma ById3(a: NodeSpec, b: NodeSpec, c: NodeSpec)
    requires a.id != b.id && b.id != c.id && a.id != c.id
    ensures NodesById([a, b, c]) == map[a.id := a, b.id := b, c.id := c]
  {
    assert [a, b, c][..2] == [a, b] && [a, b][..1] == [a];
    assert NodesById([a]) == map[a.id := a];
    assert NodesById([a, b]) == map[a.id := a, b.id := b];
  }

  lemma Ids3(a: NodeSpec, b: NodeSpec, c: NodeSpec)
    ensures NodeIds([a, b, c]) == [a.id, b.id, c.id]
    ensures a.id != b.id && b.id != c.id && a.id != c.id ==> Distinct(NodeIds([a, b, c]))
    ensures Elements(NodeIds([a, b, c])) == {a.id, b.id, c.id}
  {
  }

  lemma NodesOf(x: Names3)
    requires x.Apart()
    ensures NodesById(Backwards(x).nodes) == map[x.last := Node(x.last), x.middle := Node(x.middle),
                                                 x.source := Node(x.source)]
    ensures IdSet(Backwards(x)) == {x.last, x.middle, x.source} && UniqueIds(Backwards(x))
    ensures forall n | n in Backwards(x).nodes :: n == Node(x.last) || n == Node(x.middle) || n == Node(x.source)
  {
    hide NodesById, NodeIds, Elements, Distinct;
    ById3(Node(x.last), Node(x.middle), Node(x.source));
    Ids3(Node(x.last), Node(x.middle), Node(x.source));
  }

  lemma Data2(e: EdgeSpec, f: EdgeSpec)
    requires e.DataEdge? && f.DataEdge?
    ensures DataEdges([e, f]) == [e, f]
  {
    assert [e, f][..1] == [e] && [e][..0] == [];
    assert DataEdges([e]) == [e];
  }

  lemma Incoming2(e: EdgeSpec, f: EdgeSpec)
    requires e.DataEdge? && f.DataEdge?
    ensures Incoming([e, f])
         == map[(e.dst, e.dstSlot) := Port(e.src, e.srcSlot)][(f.dst, f.dstSlot) := Port(f.src, f.srcSlot)]
  {
    assert [e, f][..1] == [e] && [e][..0] == [];
    assert Incoming([e]) == map[(e.dst, e.dstSlot) := Port(e.src, e.srcSlot)];
  }

  lemma EdgesOf(x: Names3)
    requires x.Apart()
    ensures SubNodeIds(Backwards(x)) == {}
    ensures DataEdges(Backwards(x).edges) == [Needed(x), Wanted(x)]
    ensures Incoming(Backwards(x).edges) == map[(x.middle, IN) := Port(x.source, OUT),
                                                (x.last, IN) := Port(x.middle, OUT)]
    ensures forall e | e in Backwards(x).edges :: e == Needed(x) || e == Wanted(x)
  {
    NodesOf(x);
    hide NodesById, IdSet, DataEdges, Incoming, UniqueIds;
    Data2(Needed(x), Wanted(x));
    Incoming2(Needed(x), Wanted(x));
    assert map[(x.middle, IN) := Port(x.source, OUT)][(x.last, IN) := Port(x.middle, OUT)]
        == map[(x.middle, IN) := Port(x.source, OUT), (x.last, IN) := Port(x.middle, OUT)];
  }

  lemma AcyclicBackwards(x: Names3)
    requires x.Apart()
    ensures DataAcyclic(Backwards(x))
  {
    hide NodesById, IdSet, DataEdges, Incoming, UniqueIds, Acyclic;
    NodesOf(x);
    EdgesOf(x);
    var order := n => if n == x.source then 0 else if n == x.middle then 1 else 2;
    RankingIsAcyclic(IdSet(Backwards(x)), Arcs([Needed(x), Wanted(x)]), order);
  }

  lemma AcceptedBackwards(x: Names3)
    requires x.Apart()
    ensures Accepts(WorldOf(x), Backwards(x))
  {
    hide DataAcyclic, UniqueIds, NodesById, IdSet, DataEdges, Backwards, Needed, Wanted, Node;
    NodesOf(x);
    EdgesOf(x);
    AcyclicBackwards(x);
    InputsBackwards(x);
    TypesBackwards(x);
    RestBackwards(x);
  }

  lemma InputsBackwards(x: Names3)
    requires x.Apart()
    ensures TypesRegistered(Backwards(x), Types(x)) && InputsCovered(Backwards(x), Types(x))
  {
    hide NodesById, IdSet, DataEdges, Backwards;
    NodesOf(x);
    EdgesOf(x);
    assert Needed(x) in DataEdges(Backwards(x).edges);
    assert HasEdgeInto(Backwards(x), x.middle, IN);
  }

  lemma TypesBackwards(x: Names3)
    requires x.Apart()
    ensures EdgesKnown(Backwards(x)) && TypesMatch(Backwards(x), Types(x))
  {
    hide NodesById, IdSet, DataEdges, Backwards, SlotsAgree, UniqueIds, Incoming, OutputsForRoot, EffectiveInputs;
    NodesOf(x);
    EdgesOf(x);
    var g, reg := Backwards(x), Types(x);
    PortsOf(g, x);
    forall e, src, dst | e in g.edges && e.DataEdge? && src in g.nodes && dst in g.nodes && src.id == e.src
           && dst.id == e.dst
                      && OutputsForRoot(g, reg, reg[src.typ], src).Some? && EffectiveInputs(reg[dst.typ], dst).Some?
      ensures SlotsAgree(e, OutputsForRoot(g, reg, reg[src.typ], src).value, EffectiveInputs(reg[dst.typ], dst).value)
    {
      if e == Needed(x) {
        OnlySlotsAgree(e, GIVES, NEEDS);
      } else {
        OnlySlotsAgree(e, GIVES, WANTS);
      }
    }
  }

  lemma PortsOf(g: GraphSpec, x: Names3)
    requires x.Apart()
    ensures OutputsForRoot(g, Types(x), Types(x)[x.source], Node(x.source)) == Some([GIVES])
    ensures OutputsForRoot(g, Types(x), Types(x)[x.middle], Node(x.middle)) == Some([GIVES])
    ensures EffectiveInputs(Types(x)[x.middle], Node(x.middle)) == Some([NEEDS])
    ensures EffectiveInputs(Types(x)[x.last], Node(x.last)) == Some([WANTS])
  {
  }

  lemma OnlySlotsAgree(e: EdgeSpec, o: OutputSlot, s: InputSlot)
    requires e.DataEdge? && o.name == e.srcSlot && s.name == e.dstSlot && o.typ == s.typ
    ensures SlotsAgree(e, [o], [s])
  {
    assert [o][0] == o && [s][0] == s;
    assert NamesOutput([o], e.srcSlot, o) && NamesInput([s], e.dstSlot, s);
  }

  lemma RestBackwards(x: Names3)
    requires x.Apart() && TypesRegistered(Backwards(x), Types(x))
    ensures ConfigsOk(Backwards(x), Types(x)) && SubNodesOk(Backwards(x), Types(x))
    ensures forall name :: !Connections.Names(Backwards(x).nodes, name)
  {
    hide NodesById, IdSet, DataEdges, Backwards, UniqueIds, SubEdgeFits, CardinalityOk, Wired, Incoming;
    NodesOf(x);
    EdgesOf(x);
  }

  // ----- The run -----

  /** The plan of the graph, as the scheduler reads it. */
  ghost predicate Planned(p: Plan, x: Names3) {
    && x.Apart() && p.queue == [x.last, x.middle, x.source]
    && p.Slots(x.last) == [WANTS] && p.Slots(x.middle) == [NEEDS] && p.Slots(x.source) == []
    && p.incoming == map[(x.middle, IN) := Port(x.source, OUT), (x.last, IN) := Port(x.middle, OUT)]
  }

  lemma PlanBackwards(x: Names3)
    requires x.Apart()
    ensures Planned(PlanOf(Backwards(x), Types(x)), x)
  {
    hide NodesById, IdSet, DataEdges, Incoming, UniqueIds, SubNodeIds, Without, NodeIds, Backwards;
    NodesOf(x);
    EdgesOf(x);
    KeepsAll(x);
  }

  lemma KeepsAll(x: Names3)
    ensures Without(NodeIds(Backwards(x).nodes), {}) == [x.last, x.middle, x.source]
  {
    assert NodeIds(Backwards(x).nodes) == [x.last, x.middle, x.source];
    assert Without([x.source], {}) == [x.source];
    assert [x.middle, x.source][1..] == [x.source];
    assert Without([x.middle, x.source], {}) == [x.middle, x.source];
    assert [x.last, x.middle, x.source][1..] == [x.middle, x.source];
  }

  lemma Unfold(p: Plan, n: Id, rest: seq<Id>, finished: set<Id>, available: map<Port, Value>)
    ensures Classify(p, [n] + rest, finished, available)
         == match Gather(p, n, finished, available)
            case Blocked => Classify(p, rest, finished + {n}, available)
            case Waiting =>
              var r := Classify(p, rest, finished, available); Pass([n] + r.kept, r.finished, r.ready)
            case Ready(inputs) =>
              var r := Classify(p, rest, finished, available); Pass([n] + r.kept, r.finished, [(n, inputs)] + r.ready)
  {
    assert ([n] + rest)[1..] == rest;
  }

  /** The source runs first; the other two wait. */
  lemma FirstPass(p: Plan, x: Names3)
    requires Planned(p, x)
    ensures Classify(p, p.queue, {}, map[]) == Pass(p.queue, {}, [(x.source, map[])])
  {
    Unfold(p, x.source, [], {}, map[]);
    Unfold(p, x.middle, [x.source], {}, map[]);
    Unfold(p, x.last, [x.middle, x.source], {}, map[]);
    assert p.queue == [x.last] + [x.middle, x.source] && [x.middle, x.source] == [x.middle] + [x.source];
  }

  /** `last` still waits for `middle` when the same pass blocks `middle`. */
  lemma SecondPass(p: Plan, x: Names3)
    requires Planned(p, x)
    ensures Classify(p, [x.last, x.middle], {x.source}, map[]) == Pass([x.last], {x.source, x.middle}, [])
  {
    Unfold(p, x.middle, [], {x.source}, map[]);
    Unfold(p, x.last, [x.middle], {x.source}, map[]);
    assert [x.last, x.middle] == [x.last] + [x.middle] && {x.source} + {x.middle} == {x.source, x.middle};
  }

  lemma DropsThird(a: Id, b: Id, c: Id)
    requires a != c && b != c
    ensures RemoveFirst([a, b, c], c) == [a, b]
  {
    assert [a, b, c][1..] == [b, c] && [b, c][1..] == [c];
    assert RemoveFirst([c], c) == [];
    assert RemoveFirst([b, c], c) == [b];
  }

  lemma AbsorbsOne(exec: Exec, st: State, n: Id)
    requires exec(n, map[]) == Failed("")
    ensures AbsorbAll(exec, st, [(n, map[])], 1)
         == State(RemoveFirst(st.pending, n), st.finished + {n}, st.available,
                  st.trace + [TraceRecord(n, map[], Failed(""))], st.starts)
  {
    hide RemoveFirst;
    assert AbsorbAll(exec, st, [(n, map[])], 0) == st;
    assert st.available + Ports(n, map[]) == st.available;
  }

  lemma SourceOnly(p: Plan, exec: Exec, x: Names3)
    requires Planned(p, x) && exec(x.source, map[]) == Failed("")
    ensures Sorted(p, Initial(p)).ready != []
    ensures AfterRound(p, exec, Initial(p))
         == State([x.last, x.middle], {x.source}, map[], [TraceRecord(x.source, map[], Failed(""))], [[x.source]])
  {
    hide Classify, AbsorbAll, RemoveFirst;
    FirstPass(p, x);
    assert Sorted(p, Initial(p)) == Pass(p.queue, {}, [(x.source, map[])]);
    assert ReadyIds([(x.source, map[])]) == [x.source] && [] + [[x.source]] == [[x.source]];
    assert {} + {x.source} == {x.source};
    AbsorbsOne(exec, State(p.queue, {}, map[], [], [[x.source]]), x.source);
    DropsThird(x.last, x.middle, x.source);
  }

  lemma StrandedRun(p: Plan, exec: Exec, x: Names3)
    requires Planned(p, x) && exec(x.source, map[]) == Failed("")
    ensures Run(p, exec).pending == [x.last] && Run(p, exec).trace == [TraceRecord(x.source, map[], Failed(""))]
  {
    hide Classify, AfterRound, Scan;
    SourceOnly(p, exec, x);
    SecondPass(p, x);
    var next := AfterRound(p, exec, Initial(p));
    assert Rounds(p, exec, next) == AfterPass(p, next);
    assert Run(p, exec) == Rounds(p, exec, next);
  }

  lemma LastRuns(p: Plan, exec: Exec, rank: Rank, x: Names3)
    requires Planned(p, x) && Ranks(p, rank)
    ensures Eval(p, exec, rank, x.last).Ran?
  {
  }

  lemma SourceFails(x: Names3)
    requires x.Apart()
    ensures NodeExec(WorldOf(x), Backwards(x))(x.source, map[]) == Failed("")
  {
    hide NodesById, IdSet, UniqueIds, Backwards;
    NodesOf(x);
  }

  lemma NoResult(x: Names3)
    requires x.Apart()
    ensures var trace := [TraceRecord(x.source, map[], Failed(""))];
            Conclude(Backwards(x), Types(x), trace) == Finished(map[], trace)
  {
    hide NodesById, Backwards, Types;
    var trace := [TraceRecord(x.source, map[], Failed(""))];
    assert trace[..0] == [];
    assert ResultOf(Backwards(x), Types(x), trace) == map[];
  }

  /** For any three names: the graph is accepted and its run ends normally, without `last`, although
      `last` lacks nothing, since an optional slot without a value keeps no node from firing. */
  lemma AcceptedNodeIsStranded(x: Names3, rank: Rank)
    requires x.Apart() && Ranks(PlanOf(Backwards(x), Types(x)), rank)
    ensures Accepts(WorldOf(x), Backwards(x))
    ensures Run(PlanOf(Backwards(x), Types(x)), NodeExec(WorldOf(x), Backwards(x))).pending == [x.last]
    ensures !Traced(Trace(WorldOf(x), Backwards(x), NodeExec(WorldOf(x), Backwards(x))), x.last)
    ensures Eval(PlanOf(Backwards(x), Types(x)), NodeExec(WorldOf(x), Backwards(x)), rank, x.last).Ran?
    ensures RunGraph(WorldOf(x), Backwards(x)) == Finished(map[], [TraceRecord(x.source, map[], Failed(""))])
  {
    hide Run, PlanOf, Valid, UniqueIds, NodeExec, Backwards, Types, Planned, Eval, Conclude, Ranks;
    var p, exec := PlanOf(Backwards(x), Types(x)), NodeExec(WorldOf(x), Backwards(x));
    AcceptedBackwards(x);
    PlanBackwards(x);
    SourceFails(x);
    StrandedRun(p, exec, x);
    LastRuns(p, exec, rank, x);
    NoResult(x);
  }
}
