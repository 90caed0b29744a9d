/** What a `loop` node computes (backend/nodes/loop.py): the iterate of its sub-graph's value function. */
module Loops {
  import opened Digraph
  import opened Wrappers
  import opened Graph
  import opened Interpreter
  import Engine
  import Validator
  import Connections

  // ----- What a loop is told to do -----

  /** The loop's config names this graph, bound and stop slot. */
  ghost predicate Configures(config: map<string, ConfigValue>, cfg: LoopConfig) {
    && "sub_graph" in config && config["sub_graph"] == Nested(cfg.graph) && UniqueIds(cfg.graph)
    && (if "max_iterations" in config
        then cfg.maxIterations > 0 && config["max_iterations"] == Plain(Number(cfg.maxIterations))
        else cfg.maxIterations == 10)
    && (if "stop_condition_slot" !in config then cfg.stop == None
        else config["stop_condition_slot"] == Plain(match cfg.stop case None => Null case Some(slot) => Text(slot)))
  }

  lemma ParseLoopMeans(config: map<string, ConfigValue>, cfg: LoopConfig)
    ensures ParseLoop(config) == Some(cfg) <==> Configures(config, cfg)
  {
    hide UniqueIds;
    BoundMeans(config, cfg.maxIterations);
    StopMeans(config, cfg.stop);
    hide ParseBound, ParseStop;
  }

  lemma BoundMeans(config: map<string, ConfigValue>, bound: nat)
    ensures ParseBound(config) == Some(bound) <==>
              if "max_iterations" in config then bound > 0 && config["max_iterations"] == Plain(Number(bound))
                 else bound == 10
  {
  }

  lemma StopMeans(config: map<string, ConfigValue>, stop: Option<Slot>)
    ensures ParseStop(config) == Some(stop) <==>
              if "stop_condition_slot" !in config then stop == None
              else config["stop_condition_slot"] == Plain(match stop case None => Null case Some(slot) => Text(slot))
  {
  }

  /** The one node of type "text_input". */
  ghost predicate IsEntry(nodes: seq<NodeSpec>, entry: Id) {
    exists i :: 0 <= i < |nodes| && OnlyTextInput(nodes, i) && nodes[i].id == entry
  }

  ghost predicate OnlyTextInput(nodes: seq<NodeSpec>, i: nat)
    requires i < |nodes|
  {
    forall j | 0 <= j < |nodes| :: nodes[j].typ == "text_input" <==> j == i
  }

  lemma {:induction false} NoEntry(nodes: seq<NodeSpec>)
    ensures EntryIds(nodes) == [] <==> forall j | 0 <= j < |nodes| :: nodes[j].typ != "text_input"
  {
    if nodes != [] {
      NoEntry(nodes[1..]);
      if nodes[0].typ != "text_input" {
        assert forall j | 0 < j < |nodes| :: nodes[j] == nodes[1..][j - 1];
      }
    }
  }

  lemma {:induction false} EntryMeans(nodes: seq<NodeSpec>, entry: Id)
    ensures EntryIds(nodes) == [entry] <==> IsEntry(nodes, entry)
  {
    if nodes != [] {
      var rest := nodes[1..];
      EntryMeans(rest, entry);
      NoEntry(rest);
      assert forall j | 0 < j < |nodes| :: nodes[j] == rest[j - 1];
      if nodes[0].typ == "text_input" {
        FirstIsEntry(nodes, entry);
      } else {
        LaterIsEntry(nodes, entry);
      }
    }
  }

  lemma FirstIsEntry(nodes: seq<NodeSpec>, entry: Id)
    requires nodes != [] && nodes[0].typ == "text_input"
    ensures IsEntry(nodes, entry) <==>
              nodes[0].id == entry && forall j | 0 <= j < |nodes| - 1 :: nodes[1..][j].typ != "text_input"
  {
    if nodes[0].id == entry && forall j | 0 <= j < |nodes| - 1 :: nodes[1..][j].typ != "text_input" {
      assert forall j | 0 < j < |nodes| :: nodes[j] == nodes[1..][j - 1];
      assert OnlyTextInput(nodes, 0);
    }
    if IsEntry(nodes, entry) {
      var i :| 0 <= i < |nodes| && OnlyTextInput(nodes, i) && nodes[i].id == entry;
      assert i == 0;
    }
  }

  lemma LaterIsEntry(nodes: seq<NodeSpec>, entry: Id)
    requires nodes != [] && nodes[0].typ != "text_input"
    ensures IsEntry(nodes, entry) <==> IsEntry(nodes[1..], entry)
  {
    var rest := nodes[1..];
    if i :| 0 <= i < |nodes| && OnlyTextInput(nodes, i) && nodes[i].id == entry {
      assert forall j | 0 <= j < |rest| :: rest[j] == nodes[j + 1];
      assert OnlyTextInput(rest, i - 1);
    }
    if i :| 0 <= i < |rest| && OnlyTextInput(rest, i) && rest[i].id == entry {
      assert forall j | 0 < j < |nodes| :: nodes[j] == rest[j - 1];
      assert OnlyTextInput(nodes, i + 1);
    }
  }

  /** Some record of the trace produced the stop slot. */
  ghost predicate Stops(stop: Option<Slot>, trace: seq<TraceRecord>) {
    exists i, slot, outputs, children ::
      0 <= i < |trace| && stop == Some(slot) && trace[i].outcome == Done(outputs, children) && slot in outputs
  }

  lemma FiredMeans(stop: Option<Slot>, trace: seq<TraceRecord>)
    ensures Fired(stop, trace) <==> Stops(stop, trace)
  {
    if Fired(stop, trace) {
      var i :| 0 <= i < |trace| && stop.value in trace[i].outcome.Outputs();
      assert trace[i].outcome == Done(trace[i].outcome.outputs, trace[i].outcome.children);
    }
  }

  // ----- One turn -----

  /** Field by field: the copy has the edges and the nodes of the stored graph, except that the entry
      node's config holds v under "value". */
  ghost predicate CopyFor(g: GraphSpec, entry: Id, v: Value, copy: GraphSpec) {
    && copy.edges == g.edges && |copy.nodes| == |g.nodes|
    && forall i | 0 <= i < |g.nodes| :: NodeFor(g.nodes[i], entry, v, copy.nodes[i])
  }

  ghost predicate NodeFor(n: NodeSpec, entry: Id, v: Value, m: NodeSpec) {
    && m.id == n.id && m.typ == n.typ && m.inputValues == n.inputValues
    && (n.id != entry ==> m.config == n.config)
    && (n.id == entry ==> "value" in m.config && m.config["value"] == Plain(v)
                          && m.config.Keys == n.config.Keys + {"value"}
                          && forall k | k in n.config && k != "value" :: m.config[k] == n.config[k])
  }

  /** There is exactly one such copy, and the loop makes it. */
  lemma SeedIsCopy(g: GraphSpec, entry: Id, v: Value, copy: GraphSpec)
    ensures CopyFor(g, entry, v, copy) <==> copy == Seed(g, entry, v)
  {
    forall i | 0 <= i < |g.nodes| && |copy.nodes| == |g.nodes|
      ensures NodeFor(g.nodes[i], entry, v, copy.nodes[i]) <==> copy.nodes[i] == SeedNode(g.nodes[i], entry, v)
    {
      SeedNodeIsCopy(g.nodes[i], entry, v, copy.nodes[i]);
    }
    if CopyFor(g, entry, v, copy) {
      assert copy.nodes == Seed(g, entry, v).nodes;
    }
  }

  lemma SeedNodeIsCopy(n: NodeSpec, entry: Id, v: Value, m: NodeSpec)
    ensures NodeFor(n, entry, v, m) <==> m == SeedNode(n, entry, v)
  {
    if NodeFor(n, entry, v, m) {
      assert m.config == SeedNode(n, entry, v).config;
    }
  }

  datatype Turn = Stuck | Turned(value: Value, trace: seq<TraceRecord>)

  /** The one entry of a result map, if it has exactly one. */
  ghost predicate OneEntry(result: map<Id, Value>, v: Value) {
    exists k :: result == map[k := v]
  }

  /** t is what one turn does that starts from v: it runs a copy that holds v, and goes on with the
      only value of its result. */
  ghost predicate IsTurn(w: World, cfg: LoopConfig, entry: Id, v: Value, t: Turn) {
    exists copy :: CopyFor(cfg.graph, entry, v, copy) && TurnFrom(RunGraph(w, copy), t)
  }

  ghost predicate TurnFrom(run: RunOutcome, t: Turn) {
    match t
    case Stuck => run.Raised? || forall x :: !OneEntry(run.result, x)
    case Turned(next, trace) => run.Finished? && OneEntry(run.result, next) && trace == run.trace
  }

  ghost function TurnOf(w: World, cfg: LoopConfig, entry: Id, v: Value): (t: Turn)
    ensures IsTurn(w, cfg, entry, v, t)
  {
    SeedIsCopy(cfg.graph, entry, v, Seed(cfg.graph, entry, v));
    var run := RunGraph(w, Seed(cfg.graph, entry, v));
    TurnFound(run);
    AfterTurn(run)
  }

  ghost function AfterTurn(run: RunOutcome): Turn {
    match run
    case Raised => Stuck
    case Finished(result, trace) =>
      match OnlyValue(result)
      case None => Stuck
      case Some(next) => Turned(next, trace)
  }

  lemma TurnFound(run: RunOutcome)
    ensures forall t :: TurnFrom(run, t) <==> t == AfterTurn(run)
  {
    if run.Finished? {
      OnlyValueMeans(run.result);
    }
  }

  lemma OnlyValueMeans(result: map<Id, Value>)
    ensures forall v :: OnlyValue(result) == Some(v) <==> OneEntry(result, v)
  {
    forall v ensures OnlyValue(result) == Some(v) <==> OneEntry(result, v) {
      if OnlyValue(result) == Some(v) {
        var k :| result.Keys == {k} && result[k] == v;
        assert result == map[k := v];
      }
      if k :| result == map[k := v] {
        assert result.Keys == {k};
      }
    }
  }

  /** A turn is determined by the value it starts from. */
  lemma OneTurnOnly(w: World, cfg: LoopConfig, entry: Id, v: Value, t: Turn)
    ensures IsTurn(w, cfg, entry, v, t) <==> t == TurnOf(w, cfg, entry, v)
  {
    if copy :| CopyFor(cfg.graph, entry, v, copy) && TurnFrom(RunGraph(w, copy), t) {
      SeedIsCopy(cfg.graph, entry, v, copy);
      TurnFound(RunGraph(w, copy));
    }
  }

  // ----- Iteration -----

  /** The value after k turns. */
  ghost function Iterated(w: World, cfg: LoopConfig, entry: Id, v: Value, k: nat): Option<Value> {
    if k == 0 then Some(v)
    else
      match Iterated(w, cfg, entry, v, k - 1)
      case None => None
      case Some(u) => (match TurnOf(w, cfg, entry, u) case Stuck => None case Turned(x, _) => Some(x))
  }

  /** The trace of the turn that starts from the k-th value. */
  ghost function TraceOfTurn(w: World, cfg: LoopConfig, entry: Id, v: Value, k: nat): seq<TraceRecord> {
    match Iterated(w, cfg, entry, v, k)
    case None => []
    case Some(u) => (match TurnOf(w, cfg, entry, u) case Stuck => [] case Turned(_, trace) => trace)
  }

  /** The first k turns all succeed, and none but perhaps the last fires the stop slot. */
  ghost predicate RunsFor(w: World, cfg: LoopConfig, entry: Id, v: Value, k: nat) {
    && Iterated(w, cfg, entry, v, k).Some?
    && forall i | 0 <= i < k - 1 :: !Stops(cfg.stop, TraceOfTurn(w, cfg, entry, v, i))
  }

  ghost predicate ChildrenOf(w: World, cfg: LoopConfig, entry: Id, v: Value, k: nat, children: seq<seq<TraceRecord>>) {
    |children| == k && forall i | 0 <= i < k :: children[i] == TraceOfTurn(w, cfg, entry, v, i)
  }

  /** The outcome of a loop that stopped after k turns: all of them done, with the k-fold iterate, or
      failed in the next turn. */
  ghost predicate StopsAfter(w: World, cfg: LoopConfig, entry: Id, v: Value, k: nat, o: Outcome) {
    && k <= cfg.maxIterations && RunsFor(w, cfg, entry, v, k)
    && match o
       case Done(outputs, traces) =>
         && outputs == map["value" := Iterated(w, cfg, entry, v, k).value]
         && traces.Some? && ChildrenOf(w, cfg, entry, v, k, traces.value)
         && (k == cfg.maxIterations || (k > 0 && Stops(cfg.stop, TraceOfTurn(w, cfg, entry, v, k - 1))))
       case Failed(_) =>
         && k < cfg.maxIterations && Iterated(w, cfg, entry, v, k + 1) == None
         && NoneFired(w, cfg, entry, v, k)
  }

  ghost predicate NoneFired(w: World, cfg: LoopConfig, entry: Id, v: Value, k: nat) {
    forall i | 0 <= i < k :: !Stops(cfg.stop, TraceOfTurn(w, cfg, entry, v, i))
  }

  lemma {:induction false} IterateFrom(w: World, cfg: LoopConfig, entry: Id, v: Value, i: nat, u: Value,
                                       children: seq<seq<TraceRecord>>) returns (k: nat)
    requires i <= cfg.maxIterations && Iterated(w, cfg, entry, v, i) == Some(u)
    requires ChildrenOf(w, cfg, entry, v, i, children) && NoneFired(w, cfg, entry, v, i)
    ensures i <= k && StopsAfter(w, cfg, entry, v, k, Iterate(w, cfg, entry, u, i, children))
    decreases cfg.maxIterations - i
  {
    hide Stops, Iterate, Iterated, TurnOf, TraceOfTurn, ChildrenOf, NoneFired, StopsAfter, RunsFor;
    if i == cfg.maxIterations {
      k := i;
      BoundReached(w, cfg, entry, v, i, u, children);
    } else {
      OneTurn(w, cfg, entry, v, i, u, children);
      match TurnOf(w, cfg, entry, u)
      case Stuck => k := i;
      case Turned(next, trace) =>
        if Stops(cfg.stop, trace) {
          k := i + 1;
        } else {
          k := IterateFrom(w, cfg, entry, v, i + 1, next, children + [trace]);
        }
    }
  }

  lemma BoundReached(w: World, cfg: LoopConfig, entry: Id, v: Value, i: nat, u: Value, children: seq<seq<TraceRecord>>)
    requires i == cfg.maxIterations && Iterated(w, cfg, entry, v, i) == Some(u)
    requires ChildrenOf(w, cfg, entry, v, i, children) && NoneFired(w, cfg, entry, v, i)
    ensures StopsAfter(w, cfg, entry, v, i, Iterate(w, cfg, entry, u, i, children))
  {
    hide Stops, RunGraph, Iterated, TraceOfTurn;
  }

  /** One turn either ends the loop or leads to the next value with one more child trace. */
  lemma OneTurn(w: World, cfg: LoopConfig, entry: Id, v: Value, i: nat, u: Value, children: seq<seq<TraceRecord>>)
    requires i < cfg.maxIterations && Iterated(w, cfg, entry, v, i) == Some(u)
    requires ChildrenOf(w, cfg, entry, v, i, children) && NoneFired(w, cfg, entry, v, i)
    ensures match TurnOf(w, cfg, entry, u)
            case Stuck => StopsAfter(w, cfg, entry, v, i, Iterate(w, cfg, entry, u, i, children))
            case Turned(next, trace) =>
              && Iterated(w, cfg, entry, v, i + 1) == Some(next)
              && ChildrenOf(w, cfg, entry, v, i + 1, children + [trace])
              && if Stops(cfg.stop, trace) then
                   StopsAfter(w, cfg, entry, v, i + 1, Iterate(w, cfg, entry, u, i, children))
                 else
                   && NoneFired(w, cfg, entry, v, i + 1)
                   && Iterate(w, cfg, entry, u, i, children) == Iterate(w, cfg, entry, next, i + 1, children + [trace])
  {
    hide Stops, Iterate, Iterated, TraceOfTurn, StopsAfter, ChildrenOf, NoneFired, RunGraph;
    var run := RunGraph(w, Seed(cfg.graph, entry, u));
    Engine.IterateStep(w, cfg, entry, u, i, children, run);
    if run.Finished? {
      FiredMeans(cfg.stop, run.trace);
    }
    NextValue(w, cfg, entry, v, i, u);
    match TurnOf(w, cfg, entry, u)
    case Stuck =>
      assert Iterate(w, cfg, entry, u, i, children).Failed?;
      FailsHere(w, cfg, entry, v, i, Iterate(w, cfg, entry, u, i, children));
    case Turned(next, trace) =>
      OneMoreChild(w, cfg, entry, v, i, children, trace);
      if Stops(cfg.stop, trace) {
        StopsHere(w, cfg, entry, v, i, next, children + [trace]);
      }
  }

  lemma FailsHere(w: World, cfg: LoopConfig, entry: Id, v: Value, i: nat, o: Outcome)
    requires i < cfg.maxIterations && Iterated(w, cfg, entry, v, i).Some? && Iterated(w, cfg, entry, v, i + 1) == None
    requires NoneFired(w, cfg, entry, v, i) && o.Failed?
    ensures StopsAfter(w, cfg, entry, v, i, o)
  {
    hide Stops, Iterated, TraceOfTurn;
  }

  lemma StopsHere(w: World, cfg: LoopConfig, entry: Id, v: Value, i: nat, next: Value, children: seq<seq<TraceRecord>>)
    requires i < cfg.maxIterations && Iterated(w, cfg, entry, v, i + 1) == Some(next)
    requires NoneFired(w, cfg, entry, v, i) && Stops(cfg.stop, TraceOfTurn(w, cfg, entry, v, i))
    requires ChildrenOf(w, cfg, entry, v, i + 1, children)
    ensures StopsAfter(w, cfg, entry, v, i + 1, Done(map["value" := next], Some(children)))
  {
    hide Stops, Iterated, TraceOfTurn;
  }

  lemma OneMoreChild(w: World, cfg: LoopConfig, entry: Id, v: Value, i: nat, children: seq<seq<TraceRecord>>,
                     trace: seq<TraceRecord>)
    requires ChildrenOf(w, cfg, entry, v, i, children) && TraceOfTurn(w, cfg, entry, v, i) == trace
    requires NoneFired(w, cfg, entry, v, i)
    ensures ChildrenOf(w, cfg, entry, v, i + 1, children + [trace])
    ensures !Stops(cfg.stop, trace) ==> NoneFired(w, cfg, entry, v, i + 1)
  {
    hide Stops, TraceOfTurn;
  }

  lemma NextValue(w: World, cfg: LoopConfig, entry: Id, v: Value, i: nat, u: Value)
    requires Iterated(w, cfg, entry, v, i) == Some(u)
    ensures match TurnOf(w, cfg, entry, u)
            case Stuck => Iterated(w, cfg, entry, v, i + 1) == None
            case Turned(next, trace) =>
              Iterated(w, cfg, entry, v, i + 1) == Some(next) && TraceOfTurn(w, cfg, entry, v, i) == trace
  {
    hide TurnOf;
  }

  /** A loop that gets started returns the k-fold iterate of its sub-graph, where k is the first turn
      whose trace fires the stop slot, or else the bound, with exactly the traces of those k turns;
      it fails exactly if some turn before that raises or yields no single value. */
  lemma LoopIsIterate(w: World, n: NodeSpec, inputs: Inputs, cfg: LoopConfig, entry: Id) returns (k: nat)
    requires Configures(n.config, cfg) && "value" in inputs && IsEntry(cfg.graph.nodes, entry)
    requires Validator.Valid(cfg.graph, w.reg, Connections.Directory(w.store, None, map[]))
    ensures StopsAfter(w, cfg, entry, inputs["value"], k, ExecuteLoop(w, n, inputs))
  {
    hide Validator.Valid, Iterate, Stops, RunGraph, StopsAfter, Configures, IsEntry, ParseLoop, EntryIds, Iterated;
    ParseLoopMeans(n.config, cfg);
    EntryMeans(cfg.graph.nodes, entry);
    Engine.LoopStarts(w, n, inputs);
    IteratedStart(w, cfg, entry, inputs["value"]);
    k := IterateFrom(w, cfg, entry, inputs["value"], 0, inputs["value"], []);
  }

  lemma IteratedStart(w: World, cfg: LoopConfig, entry: Id, v: Value)
    ensures Iterated(w, cfg, entry, v, 0) == Some(v) && ChildrenOf(w, cfg, entry, v, 0, [])
            && NoneFired(w, cfg, entry, v, 0)
  {
  }

  /** A loop that does not get started fails. */
  lemma LoopRefuses(w: World, n: NodeSpec, inputs: Inputs)
    requires "value" !in inputs || forall cfg, entry ::
               !(Configures(n.config, cfg) && IsEntry(cfg.graph.nodes, entry)
                 && Validator.Valid(cfg.graph, w.reg, Connections.Directory(w.store, None, map[])))
    ensures ExecuteLoop(w, n, inputs).Failed?
  {
    hide Validator.Valid, Iterate, Configures, IsEntry, ParseLoop, EntryIds;
    if ParseLoop(n.config).Some? {
      var cfg := ParseLoop(n.config).value;
      ParseLoopMeans(n.config, cfg);
      if |EntryIds(cfg.graph.nodes)| == 1 {
        assert EntryIds(cfg.graph.nodes) == [EntryIds(cfg.graph.nodes)[0]];
        EntryMeans(cfg.graph.nodes, EntryIds(cfg.graph.nodes)[0]);
      }
    }
  }
}
