/** Type soundness: every input of every record has its slot's declared type
(backend/validation/rules.py:118-205, backend/execution/engine.py:143-169). */
module Typing {
  import opened Digraph
  import opened Wrappers
  import opened Graph
  import opened Schedule
  import opened Denotation
  import opened Soundness
  import opened Rules
  import opened Validator
  import opened Interpreter
  import opened Validated
  import opened SubNodes

  /** Any relation between values and slot types. */
  type Typing = (Value, SlotType) -> bool

  /** Every schema of the graph resolves. */
  ghost predicate Resolved(g: GraphSpec, reg: Registry) {
    forall n | n in g.nodes :: n.typ in reg
      && EffectiveInputs(reg[n.typ], n).Some? && OutputsForRoot(g, reg, reg[n.typ], n).Some?
  }

  /** Only declared slots receive values, and values of their types. */
  ghost predicate InputsTyped(hasType: Typing, slots: seq<InputSlot>, inputs: Inputs) {
    forall name | name in inputs ::
      FindInput(slots, name).Some? && hasType(inputs[name], FindInput(slots, name).value.typ)
  }

  ghost predicate OutputsTyped(hasType: Typing, ports: seq<OutputSlot>, outputs: map<Slot, Value>) {
    forall name | name in outputs ::
      FindOutput(ports, name).Some? && hasType(outputs[name], FindOutput(ports, name).value.typ)
  }

  /** A literal that feeds a slot of a scheduled node has the slot's type. */
  ghost predicate LiteralsTyped(hasType: Typing, g: GraphSpec, reg: Registry) {
    forall n, name | n in g.nodes && n.id !in SubNodeIds(g) && name in n.inputValues
           && (n.id, name) !in Incoming(g.edges)
                  && FindInput(InputsOrNone(reg, n), name).Some? ::
      hasType(n.inputValues[name], FindInput(InputsOrNone(reg, n), name).value.typ)
  }

  /** On well-typed inputs the bodies of scheduled nodes return only declared slots, at their
      declared types. Nothing is asked of them on other inputs. */
  ghost predicate BodiesTyped(hasType: Typing, g: GraphSpec, reg: Registry, exec: Exec)
    requires Resolved(g, reg)
  {
    forall n, inputs | n in g.nodes && n.id !in SubNodeIds(g) && InputsTyped(hasType, InputsOrNone(reg, n), inputs) ::
      OutputsTyped(hasType, OutputsForRoot(g, reg, reg[n.typ], n).value, exec(n.id, inputs).Outputs())
  }

  /** A record whose inputs are typed. */
  ghost predicate RecordTyped(hasType: Typing, g: GraphSpec, reg: Registry, r: TraceRecord) {
    InputsTyped(hasType, PlanOf(g, reg).Slots(r.node), r.inputs)
  }

  /** A checked data edge passes a value of its source port's type into a slot of the same type. */
  lemma EdgePassesType(hasType: Typing, g: GraphSpec, reg: Registry, e: EdgeSpec, outputs: map<Slot, Value>)
    requires Resolved(g, reg) && EdgesKnown(g) && TypesRegistered(g, reg) && TypesMatch(g, reg)
    requires e in g.edges && e.DataEdge? && e.src in NodesById(g.nodes) && e.srcSlot in outputs
    requires var src := NodesById(g.nodes)[e.src];
             OutputsTyped(hasType, OutputsForRoot(g, reg, reg[src.typ], src).value, outputs)
    ensures e.dst in NodesById(g.nodes)
    ensures var slots := InputsOrNone(reg, NodesById(g.nodes)[e.dst]);
            FindInput(slots, e.dstSlot).Some? && hasType(outputs[e.srcSlot], FindInput(slots, e.dstSlot).value.typ)
  {
    hide EdgesKnown, NodesById, NamesInput, NamesOutput;
    KnownEnds(g, e);
    var src, dst := NodesById(g.nodes)[e.src], NodesById(g.nodes)[e.dst];
    var outs, ins := OutputsForRoot(g, reg, reg[src.typ], src).value, EffectiveInputs(reg[dst.typ], dst).value;
    assert SlotsAgree(e, outs, ins);
    NamedOutputIsFound(outs, e.srcSlot);
    NamedInputIsFound(ins, e.dstSlot);
  }

  /** What reaches the slots of a record, by the evaluator. */
  lemma RecordArrivals(p: Plan, exec: Exec, rank: Rank, r: TraceRecord, name: Slot)
    requires Ranks(p, rank) && Eval(p, exec, rank, r.node) == Ran(r.inputs, r.outcome) && name in r.inputs
    ensures name in Names(p.Slots(r.node)) && r.outcome == exec(r.node, r.inputs)
    ensures (r.node, name) !in p.incoming ==> name in p.Literals(r.node) && p.Literals(r.node)[name] == r.inputs[name]
  {
    assert Arrival(p, exec, rank, r.node, name).Some?;
  }

  lemma NamedIsFound(slots: seq<InputSlot>, name: Slot)
    requires name in Names(slots)
    ensures FindInput(slots, name).Some?
  {
  }

  /** In a run of a validated graph whose schemas resolve, whose literals fit their slots and whose
      bodies keep types, every input of every record has its slot's declared type: by induction along
      the trace, since every edge-fed value comes from an earlier record. */
  lemma {:induction false} RunIsTyped(hasType: Typing, w: World, g: GraphSpec, exec: Exec, i: nat)
    requires Accepts(w, g) && Resolved(g, w.reg)
    requires LiteralsTyped(hasType, g, w.reg) && BodiesTyped(hasType, g, w.reg, exec)
    requires i < |Trace(w, g, exec)|
    ensures RecordTyped(hasType, g, w.reg, Trace(w, g, exec)[i])
    decreases i
  {
    hide InputsTyped, BodiesTyped, LiteralsTyped, RecordTyped, Valid, UniqueIds, Distinct, Resolved, PlanOf, Run;
    var p := PlanOf(g, w.reg);
    var rank := ValidRanks(g, w.reg, w.Directory(w.user));
    QueueDistinct(g, w.reg);
    RunIsFinal(p, exec, rank);
    forall j | 0 <= j < i ensures RecordTyped(hasType, g, w.reg, Trace(w, g, exec)[j]) {
      RunIsTyped(hasType, w, g, exec, j);
    }
    FinalIsTrue(p, exec, rank, Run(p, exec));
    TypedAfterTyped(hasType, w, g, exec, rank, Trace(w, g, exec), i);
  }

  ghost predicate TrueTrace(p: Plan, exec: Exec, rank: Rank, trace: seq<TraceRecord>)
    requires Ranks(p, rank)
  {
    && Provenance(p, trace)
    && forall i | 0 <= i < |trace| ::
         trace[i].node in p.queue && Eval(p, exec, rank, trace[i].node) == Ran(trace[i].inputs, trace[i].outcome)
  }

  lemma FinalIsTrue(p: Plan, exec: Exec, rank: Rank, st: State)
    requires Ranks(p, rank) && Final(p, exec, rank, st)
    ensures TrueTrace(p, exec, rank, st.trace)
  {
    hide Eval;
  }

  /** One step of the induction. */
  lemma TypedAfterTyped(hasType: Typing, w: World, g: GraphSpec, exec: Exec, rank: Rank, trace: seq<TraceRecord>,
                        i: nat)
    requires Valid(g, w.reg, w.Directory(w.user)) && Resolved(g, w.reg) && i < |trace|
    requires LiteralsTyped(hasType, g, w.reg) && BodiesTyped(hasType, g, w.reg, exec)
    requires Ranks(PlanOf(g, w.reg), rank) && TrueTrace(PlanOf(g, w.reg), exec, rank, trace)
    requires forall j | 0 <= j < i :: RecordTyped(hasType, g, w.reg, trace[j])
    ensures RecordTyped(hasType, g, w.reg, trace[i])
  {
    hide Eval, Valid, BodiesTyped, LiteralsTyped, RecordTyped, Resolved, FedBefore;
    var p, r := PlanOf(g, w.reg), trace[i];
    forall name | name in r.inputs
      ensures var slots := p.Slots(r.node);
              FindInput(slots, name).Some? && hasType(r.inputs[name], FindInput(slots, name).value.typ)
    {
      RecordArrivals(p, exec, rank, r, name);
      if (r.node, name) in p.incoming {
        var e := IncomingIsEdge(g.edges, (r.node, name));
        assert FedBefore(trace, i, p.incoming[(r.node, name)], r.inputs[name]);
        var j := Feeder(trace, i, p.incoming[(r.node, name)], r.inputs[name]);
        OutputsFollow(hasType, g, w.reg, w.Directory(w.user), exec, rank, trace[j]);
        FedIsTyped(hasType, g, w.reg, w.Directory(w.user), e, trace[j].outcome.Outputs());
      } else {
        LiteralIsTyped(hasType, g, w.reg, r.node, name);
      }
    }
    AllNamesTyped(hasType, g, w.reg, r);
  }

  lemma Feeder(trace: seq<TraceRecord>, i: nat, port: Port, v: Value) returns (j: nat)
    requires i <= |trace| && FedBefore(trace, i, port, v)
    ensures j < i && trace[j].node == port.node
    ensures port.slot in trace[j].outcome.Outputs() && trace[j].outcome.Outputs()[port.slot] == v
  {
    j :| 0 <= j < i && trace[j].node == port.node
      && port.slot in trace[j].outcome.Outputs() && trace[j].outcome.Outputs()[port.slot] == v;
  }

  lemma AllNamesTyped(hasType: Typing, g: GraphSpec, reg: Registry, r: TraceRecord)
    requires forall name | name in r.inputs ::
               var slots := PlanOf(g, reg).Slots(r.node);
               FindInput(slots, name).Some? && hasType(r.inputs[name], FindInput(slots, name).value.typ)
    ensures RecordTyped(hasType, g, reg, r)
  {
    hide PlanOf;
  }

  lemma LiteralIsTyped(hasType: Typing, g: GraphSpec, reg: Registry, n: Id, name: Slot)
    requires LiteralsTyped(hasType, g, reg)
    requires n in PlanOf(g, reg).queue && (n, name) !in Incoming(g.edges)
    requires name in Names(PlanOf(g, reg).Slots(n)) && name in PlanOf(g, reg).Literals(n)
    ensures var p := PlanOf(g, reg);
            && FindInput(p.Slots(n), name).Some?
            && hasType(p.Literals(n)[name], FindInput(p.Slots(n), name).value.typ)
  {
    hide PlanOf, NodesById;
    QueuedNode(g, reg, n);
    NamedIsFound(PlanOf(g, reg).Slots(n), name);
  }

  /** The outputs of a record whose inputs are typed are typed. */
  lemma OutputsFollow(hasType: Typing, g: GraphSpec, reg: Registry, d: Connections.Directory, exec: Exec, rank: Rank,
                      r: TraceRecord)
    requires Valid(g, reg, d) && Resolved(g, reg) && BodiesTyped(hasType, g, reg, exec)
             && RecordTyped(hasType, g, reg, r)
    requires Ranks(PlanOf(g, reg), rank) && r.node in PlanOf(g, reg).queue
    requires Eval(PlanOf(g, reg), exec, rank, r.node) == Ran(r.inputs, r.outcome)
    ensures r.node in NodesById(g.nodes)
    ensures var n := NodesById(g.nodes)[r.node];
            n in g.nodes && OutputsTyped(hasType, OutputsForRoot(g, reg, reg[n.typ], n).value, r.outcome.Outputs())
  {
    hide PlanOf, NodesById, Valid, OutputsTyped, InputsTyped;
    QueuedNode(g, reg, r.node);
    RanIsExec(PlanOf(g, reg), exec, rank, r.node, r.inputs, r.outcome);
  }

  lemma FedIsTyped(hasType: Typing, g: GraphSpec, reg: Registry, d: Connections.Directory, e: EdgeSpec,
                   outputs: map<Slot, Value>)
    requires Valid(g, reg, d) && Resolved(g, reg)
    requires e in g.edges && e.DataEdge? && e.src in NodesById(g.nodes) && e.srcSlot in outputs
    requires var src := NodesById(g.nodes)[e.src];
             src in g.nodes && OutputsTyped(hasType, OutputsForRoot(g, reg, reg[src.typ], src).value, outputs)
    ensures var slots := PlanOf(g, reg).Slots(e.dst);
            FindInput(slots, e.dstSlot).Some? && hasType(outputs[e.srcSlot], FindInput(slots, e.dstSlot).value.typ)
  {
    hide NodesById, InputsCovered, TypesMatch, DataAcyclic, ConfigsOk, SubNodesOk, OutputsTyped, EdgesKnown, Resolved;
    EdgePassesType(hasType, g, reg, e, outputs);
  }

  lemma RanIsExec(p: Plan, exec: Exec, rank: Rank, n: Id, inputs: Inputs, outcome: Outcome)
    requires Ranks(p, rank) && Eval(p, exec, rank, n) == Ran(inputs, outcome)
    ensures outcome == exec(n, inputs)
  {
  }

  // ----- Whole runs, with the bodies that the engine itself provides -----

  /** How the registered types declare their ports: only a webhook trigger borrows them, and it is no
      adapter itself. */
  predicate PortsDeclared(d: NodeDefinition) {
    match d.body
    case WebhookBody => IsWebhook(d) && d.subNodeRole.None?
    case _ => d.slotsFromSubNode.None?
  }

  ghost predicate Declares(reg: Registry) {
    forall t | t in reg :: PortsDeclared(reg[t])
  }

  /** On well-typed inputs a scheduled primitive node keeps its declaration. */
  ghost predicate PrimitiveTyped(hasType: Typing, w: World, g: GraphSpec, n: NodeSpec)
    requires n.typ in w.reg && w.reg[n.typ].body.Primitive? && EffectiveOutputs(w.reg[n.typ], n).Some?
  {
    forall inputs | InputsTyped(hasType, InputsOrNone(w.reg, n), inputs) ::
      OutputsTyped(hasType, EffectiveOutputs(w.reg[n.typ], n).value,
                   w.reg[n.typ].body.run(n, inputs, ResourcesOf(w, g)).Outputs())
  }

  /** A primitive adapter keeps its declaration on every payload: payloads are not checked. */
  ghost predicate AdapterTyped(hasType: Typing, w: World, g: GraphSpec, n: NodeSpec)
    requires n.typ in w.reg && w.reg[n.typ].body.Primitive? && EffectiveOutputs(w.reg[n.typ], n).Some?
  {
    forall v :: OutputsTyped(hasType, EffectiveOutputs(w.reg[n.typ], n).value,
                             w.reg[n.typ].body.run(n, map["payload" := v], ResourcesOf(w, g)).Outputs())
  }

  /** The input slot and the output slot `value` of a loop have this one type. */
  predicate LoopHasType(reg: Registry, n: NodeSpec, t: SlotType)
    requires n.typ in reg && EffectiveOutputs(reg[n.typ], n).Some?
  {
    var input, output := FindInput(InputsOrNone(reg, n), "value"),
      FindOutput(EffectiveOutputs(reg[n.typ], n).value, "value");
    input.Some? && output.Some? && input.value.typ == t && output.value.typ == t
  }

  /** The slot that a node hands to the result of its run has this type. */
  ghost predicate ResultsHaveType(g: GraphSpec, reg: Registry, t: SlotType) {
    forall n | n in g.nodes && n.typ in reg && reg[n.typ].resultSlot.Some?
            && FindInput(InputsOrNone(reg, n), reg[n.typ].resultSlot.value).Some? ::
      FindInput(InputsOrNone(reg, n), reg[n.typ].resultSlot.value).value.typ == t
  }

  /** The typing obligations of a graph, and of the graphs nested in its loops for every well-typed
      value a turn may start with. Nothing is asked of a loop as a whole. */
  ghost predicate WellTyped(hasType: Typing, w: World, g: GraphSpec)
    decreases GraphDepth(g), 2
  {
    && Resolved(g, w.reg) && LiteralsTyped(hasType, g, w.reg)
    && forall n | n in g.nodes && EffectiveOutputs(w.reg[n.typ], n).Some? ::
         match w.reg[n.typ].body
         case Primitive(_) =>
           if n.id in SubNodeIds(g) then
             w.reg[n.typ].subNodeRole == Some("trigger_adapter") ==> AdapterTyped(hasType, w, g, n)
           else PrimitiveTyped(hasType, w, g, n)
         case LoopBody =>
           MemberDepth(g.nodes, n);
           n.id !in SubNodeIds(g) ==> LoopTyped(hasType, w, n)
         case WebhookBody => true
  }

  ghost predicate LoopTyped(hasType: Typing, w: World, n: NodeSpec)
    requires n.typ in w.reg && EffectiveOutputs(w.reg[n.typ], n).Some?
    decreases NodeDepth(n), 1
  {
    exists t :: LoopHasType(w.reg, n, t) && TurnsTyped(hasType, w, n, t)
  }

  ghost predicate TurnsTyped(hasType: Typing, w: World, n: NodeSpec, t: SlotType)
    decreases NodeDepth(n), 0
  {
    match ParseLoop(n.config)
    case None => true
    case Some(cfg) =>
      forall entry, v | EntryIds(cfg.graph.nodes) == [entry] && hasType(v, t)
             && Accepts(w, Seed(cfg.graph, entry, v)) ::
        SeedDepth(cfg.graph, entry, v);
        WellTyped(hasType, w, Seed(cfg.graph, entry, v)) && ResultsHaveType(Seed(cfg.graph, entry, v), w.reg, t)
  }

  /** Whatever is in the result of a run was an input of one of its records, in its result slot. */
  lemma {:induction false} ResultIsInput(g: GraphSpec, reg: Registry, trace: seq<TraceRecord>, n: Id) returns (i: nat)
    requires n in ResultOf(g, reg, trace)
    ensures i < |trace| && trace[i].node == n && ResultSlot(g, reg, n).Some?
    ensures ResultSlot(g, reg, n).value in trace[i].inputs
    ensures ResultOf(g, reg, trace)[n] == trace[i].inputs[ResultSlot(g, reg, n).value]
  {
    hide ResultSlot;
    var front, r := trace[..|trace| - 1], trace[|trace| - 1];
    if r.node == n && r.outcome.Done? && ResultSlot(g, reg, n).Some? && ResultSlot(g, reg, n).value in r.inputs {
      i := |trace| - 1;
    } else {
      i := ResultIsInput(g, reg, front, n);
    }
  }

  /** A typed run of a graph whose result slots have one type yields values of that type. */
  lemma ResultIsTyped(hasType: Typing, g: GraphSpec, reg: Registry, t: SlotType, trace: seq<TraceRecord>, n: Id)
    requires n in ResultOf(g, reg, trace) && ResultsHaveType(g, reg, t)
    requires forall i | 0 <= i < |trace| :: RecordTyped(hasType, g, reg, trace[i])
    ensures hasType(ResultOf(g, reg, trace)[n], t)
  {
    hide ResultOf, NodesById;
    var i := ResultIsInput(g, reg, trace, n);
    assert RecordTyped(hasType, g, reg, trace[i]);
    assert NodesById(g.nodes)[n] in g.nodes;
  }

  /** Type soundness of `run_graph`: in a run of a validated graph that meets its typing obligations,
      every input of every record has its slot's declared type, with trigger ports mirrored from the
      adapter that runs, and loop values typed by the runs of their sub-graphs. */
  lemma {:induction false} WholeRunIsTyped(hasType: Typing, w: World, g: GraphSpec, i: nat)
    requires Accepts(w, g) && Declares(w.reg) && WellTyped(hasType, w, g)
    requires i < |Trace(w, g, NodeExec(w, g))|
    ensures RecordTyped(hasType, g, w.reg, Trace(w, g, NodeExec(w, g))[i])
    decreases GraphDepth(g), 2
  {
    hide Valid, UniqueIds, Trace, RecordTyped, ExecuteNode, InputsTyped, OutputsTyped, OutputsForRoot, LiteralsTyped,
      WellTyped;
    WellTypedParts(hasType, w, g);
    forall n, inputs | n in g.nodes && n.id !in SubNodeIds(g) && InputsTyped(hasType, InputsOrNone(w.reg, n), inputs)
      ensures OutputsTyped(hasType, OutputsForRoot(g, w.reg, w.reg[n.typ], n).value,
                           NodeExec(w, g)(n.id, inputs).Outputs())
    {
      NodesByIdUnique(g, n);
      NodeIsTyped(hasType, w, g, n, inputs);
    }
    RunIsTyped(hasType, w, g, NodeExec(w, g), i);
  }

  lemma WellTypedParts(hasType: Typing, w: World, g: GraphSpec)
    requires WellTyped(hasType, w, g)
    ensures Resolved(g, w.reg) && LiteralsTyped(hasType, g, w.reg)
  {
    hide LiteralsTyped, Resolved;
  }

  /** On well-typed inputs a scheduled node returns what its ports promise, whatever its body; for a
      webhook trigger these are its adapter's ports, and the body that ran is the adapter's too. */
  lemma {:induction false} NodeIsTyped(hasType: Typing, w: World, g: GraphSpec, n: NodeSpec, inputs: Inputs)
    requires Accepts(w, g) && Declares(w.reg) && WellTyped(hasType, w, g)
    requires n in g.nodes && n.id !in SubNodeIds(g) && InputsTyped(hasType, InputsOrNone(w.reg, n), inputs)
    ensures n.typ in w.reg && OutputsForRoot(g, w.reg, w.reg[n.typ], n).Some?
    ensures OutputsTyped(hasType, OutputsForRoot(g, w.reg, w.reg[n.typ], n).value,
                         ExecuteNode(w, g, n, inputs).Outputs())
    decreases GraphDepth(g), 1
  {
    hide Valid, UniqueIds, InputsTyped, OutputsTyped, ExecuteLoop, ExecuteWebhook, LoopTyped, LiteralsTyped,
      PrimitiveTyped, AdapterTyped;
    assert PortsDeclared(w.reg[n.typ]);
    match w.reg[n.typ].body
    case Primitive(run) =>
      PrimitiveKeeps(hasType, w, g, n, inputs);
    case LoopBody =>
      MemberDepth(g.nodes, n);
      LoopIsTyped(hasType, w, n, inputs);
    case WebhookBody =>
      WebhookIsTyped(hasType, w, g, n);
  }

  lemma PrimitiveKeeps(hasType: Typing, w: World, g: GraphSpec, n: NodeSpec, inputs: Inputs)
    requires n.typ in w.reg && w.reg[n.typ].body.Primitive? && EffectiveOutputs(w.reg[n.typ], n).Some?
    requires PrimitiveTyped(hasType, w, g, n) && InputsTyped(hasType, InputsOrNone(w.reg, n), inputs)
    ensures OutputsTyped(hasType, EffectiveOutputs(w.reg[n.typ], n).value,
                         w.reg[n.typ].body.run(n, inputs, ResourcesOf(w, g)).Outputs())
  {
  }

  lemma WebhookIsTyped(hasType: Typing, w: World, g: GraphSpec, n: NodeSpec)
    requires Accepts(w, g) && Declares(w.reg) && WellTyped(hasType, w, g)
    requires n in g.nodes && w.reg[n.typ].body.WebhookBody?
    ensures OutputsForRoot(g, w.reg, w.reg[n.typ], n).Some?
    ensures OutputsTyped(hasType, OutputsForRoot(g, w.reg, w.reg[n.typ], n).value, ExecuteWebhook(w, g, n).Outputs())
  {
    hide Valid, UniqueIds, ExecuteLoop, ExecuteWebhook, LoopTyped, LiteralsTyped, PrimitiveTyped, SubNodeIds, Wired;
    assert PortsDeclared(w.reg[n.typ]);
    var adapter := WebhookRunsItsAdapter(w, g, w.Directory(w.user), n);
    match w.reg[adapter.typ].body
    case Primitive(run) =>
      assert AdapterTyped(hasType, w, g, adapter);
    case LoopBody =>
      LoopNeedsValue(w, adapter, map["payload" := PayloadOf(w, n)]);
    case WebhookBody =>
  }

  lemma LoopNeedsValue(w: World, n: NodeSpec, inputs: Inputs)
    requires "value" !in inputs
    ensures ExecuteLoop(w, n, inputs).Failed?
  {
  }

  /** A loop returns a value of its declared type. */
  lemma {:induction false} LoopIsTyped(hasType: Typing, w: World, n: NodeSpec, inputs: Inputs)
    requires n.typ in w.reg && EffectiveOutputs(w.reg[n.typ], n).Some? && Declares(w.reg)
    requires LoopTyped(hasType, w, n) && InputsTyped(hasType, InputsOrNone(w.reg, n), inputs)
    ensures OutputsTyped(hasType, EffectiveOutputs(w.reg[n.typ], n).value, ExecuteLoop(w, n, inputs).Outputs())
    decreases NodeDepth(n), 0
  {
    hide TurnsTyped, Valid, Iterate, ParseLoop, EntryIds, InputsTyped, OutputsTyped, LoopHasType;
    var t :| LoopHasType(w.reg, n, t) && TurnsTyped(hasType, w, n, t);
    if ParseLoop(n.config).Some? {
      var cfg := ParseLoop(n.config).value;
      if Valid(cfg.graph, w.reg, w.Directory(None)) && |EntryIds(cfg.graph.nodes)| == 1 && "value" in inputs {
        ValueIsTyped(hasType, w.reg, n, t, inputs);
        IterateIsTyped(hasType, w, n, cfg, t, EntryIds(cfg.graph.nodes)[0], inputs["value"], 0, []);
      }
    }
    ReturnIsTyped(hasType, w.reg, n, t, ExecuteLoop(w, n, inputs));
  }

  lemma ValueIsTyped(hasType: Typing, reg: Registry, n: NodeSpec, t: SlotType, inputs: Inputs)
    requires n.typ in reg && EffectiveOutputs(reg[n.typ], n).Some? && LoopHasType(reg, n, t)
    requires InputsTyped(hasType, InputsOrNone(reg, n), inputs) && "value" in inputs
    ensures hasType(inputs["value"], t)
  {
  }

  lemma ReturnIsTyped(hasType: Typing, reg: Registry, n: NodeSpec, t: SlotType, o: Outcome)
    requires n.typ in reg && EffectiveOutputs(reg[n.typ], n).Some? && LoopHasType(reg, n, t)
    requires o.Failed? || exists u :: o.Outputs() == map["value" := u] && hasType(u, t)
    ensures OutputsTyped(hasType, EffectiveOutputs(reg[n.typ], n).value, o.Outputs())
  {
  }

  /** So far the loop's value has its type; then so have all later ones. */
  lemma {:induction false} IterateIsTyped(hasType: Typing, w: World, n: NodeSpec, cfg: LoopConfig, t: SlotType,
                                          entry: Id, v: Value, i: nat, children: seq<seq<TraceRecord>>)
    requires Declares(w.reg) && ParseLoop(n.config) == Some(cfg) && EntryIds(cfg.graph.nodes) == [entry]
    requires TurnsTyped(hasType, w, n, t) && hasType(v, t)
    ensures var o := Iterate(w, cfg, entry, v, i, children);
            o.Failed? || exists u :: o.Outputs() == map["value" := u] && hasType(u, t)
    decreases GraphDepth(cfg.graph), 4, cfg.maxIterations - i
  {
    hide TurnsTyped, RunGraph;
    if i < cfg.maxIterations {
      match RunGraph(w, Seed(cfg.graph, entry, v))
      case Raised =>
      case Finished(result, trace) =>
        match OnlyValue(result)
        case None =>
        case Some(next) =>
          TurnIsTyped(hasType, w, n, cfg, t, entry, v, next);
          if !Fired(cfg.stop, trace) {
            IterateIsTyped(hasType, w, n, cfg, t, entry, next, i + 1, children + [trace]);
          }
    } else {
      assert Iterate(w, cfg, entry, v, i, children).Outputs() == map["value" := v];
    }
  }

  /** One turn that starts from a typed value ends in one. */
  lemma {:induction false} TurnIsTyped(hasType: Typing, w: World, n: NodeSpec, cfg: LoopConfig, t: SlotType, entry: Id,
                                       v: Value, next: Value)
    requires Declares(w.reg) && ParseLoop(n.config) == Some(cfg) && EntryIds(cfg.graph.nodes) == [entry]
    requires TurnsTyped(hasType, w, n, t) && hasType(v, t)
    requires var run := RunGraph(w, Seed(cfg.graph, entry, v)); run.Finished? && OnlyValue(run.result) == Some(next)
    ensures hasType(next, t)
    decreases GraphDepth(cfg.graph), 3, 1
  {
    hide WellTyped, Valid, NodeExec, Run, PlanOf, ResultsHaveType, RecordTyped, Declares, ResultOf;
    var g := Seed(cfg.graph, entry, v);
    SeedDepth(cfg.graph, entry, v);
    SeedUnique(cfg.graph, entry, v);
    var trace := Trace(w, g, NodeExec(w, g));
    forall i | 0 <= i < |trace| ensures RecordTyped(hasType, g, w.reg, trace[i]) {
      WholeRunIsTyped(hasType, w, g, i);
    }
    var result := ResultOf(g, w.reg, trace);
    var k :| result.Keys == {k} && result[k] == next;
    ResultIsTyped(hasType, g, w.reg, t, trace, k);
  }
}
