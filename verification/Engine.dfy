/** The engine as it is written: `run_graph`, the round loop over mutable `pending`, `finished`,
`available`, `trace` and `result`, and the node bodies that re-enter it
(backend/execution/engine.py, backend/nodes/loop.py, backend/nodes/webhook_trigger.py). */
module Engine {
  import opened Digraph
  import opened Wrappers
  import opened Graph
  import opened Schedule
  import opened Rules
  import opened Validator
  import opened Interpreter

  // ----- gather_inputs -----

  method GatherInputs(p: Plan, n: Id, finished: set<Id>, available: map<Port, Value>) returns (r: Gathered)
    ensures r == Gather(p, n, finished, available)
  {
    var gathered: Inputs := map[];
    var slots := p.Slots(n);
    assert slots[0..] == slots;
    for i := 0 to |slots|
      invariant Scan(p, n, finished, available, slots[i..], gathered) == Gather(p, n, finished, available)
    {
      var s := slots[i];
      assert slots[i..][0] == s && slots[i..][1..] == slots[i + 1..];
      if (n, s.name) !in p.incoming {
        if s.name in p.Literals(n) {
          gathered := gathered[s.name := p.Literals(n)[s.name]];
        } else if s.required {
          return Blocked;
        }
        continue;
      }
      var port := p.incoming[(n, s.name)];
      if port in available {
        gathered := gathered[s.name := available[port]];
      } else if port.node in finished {
        if s.required {
          return Blocked;
        }
      } else {
        return Waiting;
      }
    }
    return Ready(gathered);
  }

  // ----- The pass over the pending list -----

  lemma {:induction false} RemoveAfter(front: seq<Id>, x: Id, back: seq<Id>)
    requires x !in front
    ensures RemoveFirst(front + [x] + back, x) == front + back
  {
    if front == [] {
      assert [] + [x] + back == [x] + back && [] + back == back;
    } else {
      assert (front + [x] + back)[1..] == front[1..] + [x] + back;
      RemoveAfter(front[1..], x, back);
      assert front + back == [front[0]] + (front[1..] + back);
    }
  }

  lemma {:induction false} RemoveKeepsDistinct(s: seq<Id>, x: Id)
    requires Distinct(s)
    ensures Distinct(RemoveFirst(s, x)) && forall y | y in RemoveFirst(s, x) :: y in s
  {
    if s != [] && s[0] != x {
      RemoveKeepsDistinct(s[1..], x);
      DistinctCons(s[0], RemoveFirst(s[1..], x));
    }
  }

  /** The pass has looked at the first i nodes of `todo` and kept `kept` of them. */
  ghost predicate Passing(p: Plan, todo: seq<Id>, before: set<Id>, available: map<Port, Value>, i: nat,
                          kept: seq<Id>, pending: seq<Id>, finished: set<Id>, ready: seq<(Id, Inputs)>) {
    && i <= |todo| && pending == kept + todo[i..] && Distinct(pending)
    && var rest := Classify(p, todo[i..], finished, available);
       Classify(p, todo, before, available) == Pass(kept + rest.kept, rest.finished, ready + rest.ready)
  }

  lemma PassingBlocked(p: Plan, todo: seq<Id>, before: set<Id>, available: map<Port, Value>, i: nat,
                       kept: seq<Id>, pending: seq<Id>, finished: set<Id>, ready: seq<(Id, Inputs)>)
    requires Passing(p, todo, before, available, i, kept, pending, finished, ready) && i < |todo|
    requires Gather(p, todo[i], finished, available).Blocked?
    ensures Passing(p, todo, before, available, i + 1, kept, RemoveFirst(pending, todo[i]), finished + {todo[i]}, ready)
  {
    var n := todo[i];
    assert todo[i..][0] == n && todo[i..][1..] == todo[i + 1..];
    assert pending == kept + [n] + todo[i + 1..];
    NotEarlier(kept, n, todo[i + 1..]);
    RemoveAfter(kept, n, todo[i + 1..]);
    RemoveKeepsDistinct(pending, n);
  }

  lemma PassingKept(p: Plan, todo: seq<Id>, before: set<Id>, available: map<Port, Value>, i: nat,
                    kept: seq<Id>, pending: seq<Id>, finished: set<Id>, ready: seq<(Id, Inputs)>)
    requires Passing(p, todo, before, available, i, kept, pending, finished, ready) && i < |todo|
    requires !Gather(p, todo[i], finished, available).Blocked?
    ensures var status := Gather(p, todo[i], finished, available);
            Passing(p, todo, before, available, i + 1, kept + [todo[i]], pending, finished,
                    if status.Ready? then ready + [(todo[i], status.inputs)] else ready)
  {
    var n, status := todo[i], Gather(p, todo[i], finished, available);
    assert todo[i..][0] == n && todo[i..][1..] == todo[i + 1..];
    var rest := Classify(p, todo[i + 1..], finished, available);
    assert kept + ([n] + rest.kept) == kept + [n] + rest.kept;
    if status.Ready? {
      assert ready + ([(n, status.inputs)] + rest.ready) == ready + [(n, status.inputs)] + rest.ready;
    }
  }

  lemma PassingStart(p: Plan, todo: seq<Id>, before: set<Id>, available: map<Port, Value>)
    requires Distinct(todo)
    ensures Passing(p, todo, before, available, 0, [], todo, before, [])
  {
    assert todo[0..] == todo && [] + todo == todo;
  }

  lemma PassingDone(p: Plan, todo: seq<Id>, before: set<Id>, available: map<Port, Value>,
                    kept: seq<Id>, pending: seq<Id>, finished: set<Id>, ready: seq<(Id, Inputs)>)
    requires Passing(p, todo, before, available, |todo|, kept, pending, finished, ready)
    ensures Pass(pending, finished, ready) == Classify(p, todo, before, available) && Distinct(pending)
  {
    assert todo[|todo|..] == [] && kept + [] == kept && ready + [] == ready;
  }

  /** Sorts every pending node: blocked nodes leave `pending` and count as finished at once. */
  method SortPending(p: Plan, todo: seq<Id>, before: set<Id>, available: map<Port, Value>)
    returns (pending: seq<Id>, finished: set<Id>, ready: seq<(Id, Inputs)>)
    requires Distinct(todo)
    ensures Pass(pending, finished, ready) == Classify(p, todo, before, available)
    ensures Distinct(pending)
  {
    hide Passing, Classify, Gather, Distinct;
    pending, finished, ready := todo, before, [];
    ghost var kept: seq<Id> := [];
    PassingStart(p, todo, before, available);
    for i := 0 to |todo|
      invariant Passing(p, todo, before, available, i, kept, pending, finished, ready)
    {
      var n := todo[i];
      var status := GatherInputs(p, n, finished, available);
      if status.Blocked? {
        PassingBlocked(p, todo, before, available, i, kept, pending, finished, ready);
        pending := RemoveFirst(pending, n);
        finished := finished + {n};
      } else {
        PassingKept(p, todo, before, available, i, kept, pending, finished, ready);
        kept := kept + [n];
        if status.Ready? {
          ready := ready + [(n, status.inputs)];
        }
      }
    }
    PassingDone(p, todo, before, available, kept, pending, finished, ready);
  }

  lemma NotEarlier(front: seq<Id>, x: Id, back: seq<Id>)
    requires Distinct(front + [x] + back)
    ensures x !in front
  {
    var all := front + [x] + back;
    forall i | 0 <= i < |front| ensures front[i] != x {
      assert all[i] == front[i] && all[|front|] == x;
    }
  }

  // ----- Traces only grow -----

  predicate Extends(shorter: seq<TraceRecord>, longer: seq<TraceRecord>) {
    shorter <= longer
  }

  lemma {:induction false} AbsorbAllExtends(exec: Exec, st: State, ready: seq<(Id, Inputs)>, j: nat, k: nat)
    requires j <= k <= |ready|
    ensures Extends(AbsorbAll(exec, st, ready, j).trace, AbsorbAll(exec, st, ready, k).trace)
    decreases k
  {
    if j < k {
      AbsorbAllExtends(exec, st, ready, j, k - 1);
    }
  }

  lemma {:induction false} RoundsExtend(p: Plan, exec: Exec, st: State)
    ensures Extends(st.trace, Rounds(p, exec, st).trace)
    decreases |st.pending|
  {
    if st.pending != [] && Sorted(p, st).ready != [] {
      var ready := Sorted(p, st).ready;
      AbsorbAllExtends(exec, AfterPass(p, st).(starts := st.starts + [ReadyIds(ready)]), ready, 0, |ready|);
      RoundsExtend(p, exec, AfterRound(p, exec, st));
    }
  }

  lemma LackingRunRaises(g: GraphSpec, reg: Registry, shorter: seq<TraceRecord>, longer: seq<TraceRecord>)
    requires Extends(shorter, longer) && shorter != [] && LacksResult(g, reg, shorter[|shorter| - 1])
    ensures Conclude(g, reg, longer) == Raised
  {
    assert longer[|shorter| - 1] == shorter[|shorter| - 1];
  }

  ghost predicate NoneLacks(g: GraphSpec, reg: Registry, trace: seq<TraceRecord>) {
    forall i | 0 <= i < |trace| :: !LacksResult(g, reg, trace[i])
  }

  lemma ConcludeFinished(g: GraphSpec, reg: Registry, trace: seq<TraceRecord>)
    requires NoneLacks(g, reg, trace)
    ensures Conclude(g, reg, trace) == Finished(ResultOf(g, reg, trace), trace)
  {
  }

  lemma ResultStep(g: GraphSpec, reg: Registry, trace: seq<TraceRecord>, r: TraceRecord)
    requires NoneLacks(g, reg, trace) && !LacksResult(g, reg, r)
    ensures NoneLacks(g, reg, trace + [r])
    ensures r.outcome.Done? && ResultSlot(g, reg, r.node).Some? ==> ResultSlot(g, reg, r.node).value in r.inputs
    ensures ResultOf(g, reg, trace + [r]) ==
              if r.outcome.Done? && ResultSlot(g, reg, r.node).Some?
              then ResultOf(g, reg, trace)[r.node := r.inputs[ResultSlot(g, reg, r.node).value]]
              else ResultOf(g, reg, trace)
  {
    assert (trace + [r])[..|trace|] == trace;
  }

  // ----- The round loop -----

  ghost predicate Going(p: Plan, exec: Exec, st: State) {
    Distinct(st.pending) && Rounds(p, exec, st) == Run(p, exec)
  }

  lemma GoingStart(g: GraphSpec, reg: Registry, exec: Exec)
    requires UniqueIds(g)
    ensures Going(PlanOf(g, reg), exec, Initial(PlanOf(g, reg)))
  {
    WithoutDistinct(NodeIds(g.nodes), SubNodeIds(g));
  }

  /** The round's nodes have been absorbed up to the k-th; the rest of the run is still ahead. */
  ghost predicate Absorbing(p: Plan, exec: Exec, start: State, ready: seq<(Id, Inputs)>, k: nat, st: State) {
    && k <= |ready| && Distinct(st.pending) && st == AbsorbAll(exec, start, ready, k)
    && Rounds(p, exec, AbsorbAll(exec, start, ready, |ready|)) == Run(p, exec)
  }

  lemma AbsorbingStart(p: Plan, exec: Exec, st: State, ready: seq<(Id, Inputs)>)
    requires Going(p, exec, st) && st.pending != [] && ready != [] && Sorted(p, st).ready == ready
    requires Distinct(Sorted(p, st).kept)
    ensures var start := AfterPass(p, st).(starts := st.starts + [ReadyIds(ready)]);
            Absorbing(p, exec, start, ready, 0, start)
  {
  }

  lemma AbsorbingStep(p: Plan, exec: Exec, start: State, ready: seq<(Id, Inputs)>, k: nat, st: State)
    requires Absorbing(p, exec, start, ready, k, st) && k < |ready|
    ensures Absorbing(p, exec, start, ready, k + 1, Absorb(st, ready[k].0, ready[k].1, exec(ready[k].0, ready[k].1)))
  {
    RemoveKeepsDistinct(st.pending, ready[k].0);
  }

  lemma AbsorbingDone(p: Plan, exec: Exec, start: State, ready: seq<(Id, Inputs)>, st: State)
    requires Absorbing(p, exec, start, ready, |ready|, st)
    ensures Going(p, exec, st)
  {
  }

  /** What has been recorded stays at the front of the whole run's trace. */
  lemma AbsorbingExtends(p: Plan, exec: Exec, start: State, ready: seq<(Id, Inputs)>, k: nat, st: State)
    requires Absorbing(p, exec, start, ready, k, st)
    ensures Extends(st.trace, Run(p, exec).trace)
  {
    AbsorbAllExtends(exec, start, ready, k, |ready|);
    RoundsExtend(p, exec, AbsorbAll(exec, start, ready, |ready|));
  }

  lemma GoingBreaks(p: Plan, exec: Exec, st: State)
    requires Going(p, exec, st) && st.pending != [] && Sorted(p, st).ready == []
    ensures Run(p, exec) == AfterPass(p, st)
  {
  }

  lemma GoingDone(p: Plan, exec: Exec, st: State)
    requires Going(p, exec, st) && st.pending == []
    ensures Run(p, exec) == st
  {
  }

  lemma RoundShrinks(exec: Exec, start: State, ready: seq<(Id, Inputs)>)
    requires ready != [] && ready[0].0 in start.pending
    ensures |AbsorbAll(exec, start, ready, |ready|).pending| < |start.pending|
  {
  }

  method RunRounds(w: World, g: GraphSpec) returns (r: RunOutcome, announced: seq<seq<Id>>)
    requires UniqueIds(g)
    ensures r == Conclude(g, w.reg, Run(PlanOf(g, w.reg), NodeExec(w, g)).trace)
    ensures r.Finished? ==> announced == Run(PlanOf(g, w.reg), NodeExec(w, g)).starts
    decreases GraphDepth(g), 4
  {
    hide Going, Absorbing, NoneLacks, Conclude, UniqueIds, NodeExec, Run, Rounds, Classify, AbsorbAll, Distinct, PlanOf,
      LacksResult, ResultOf, RemoveFirst, Extends;
    ghost var exec := NodeExec(w, g);
    var p := PlanOf(g, w.reg);
    var pending, finished, available := p.queue, {}, map[];
    var trace: seq<TraceRecord>, result: map<Id, Value> := [], map[];
    announced := [];
    GoingStart(g, w.reg, exec);
    NothingLacks(g, w.reg);
    ghost var stuck := false;
    while pending != []
      invariant !stuck
      invariant Going(p, exec, State(pending, finished, available, trace, announced))
      invariant NoneLacks(g, w.reg, trace) && result == ResultOf(g, w.reg, trace)
      decreases |pending|
    {
      ghost var st := State(pending, finished, available, trace, announced);
      GoingIsDistinct(p, exec, st);
      var ready;
      pending, finished, ready := SortPending(p, pending, finished, available);
      if ready == [] {
        GoingBreaks(p, exec, st);
        stuck := true;
        break;
      }
      announced := announced + [ReadyIds(ready)];
      var outcomes := ExecuteReady(w, g, ready);
      ghost var start := State(pending, finished, available, trace, announced);
      AbsorbingStart(p, exec, st, ready);
      for k := 0 to |ready|
        invariant Absorbing(p, exec, start, ready, k, State(pending, finished, available, trace, announced))
        invariant NoneLacks(g, w.reg, trace) && result == ResultOf(g, w.reg, trace)
      {
        var (n, inputs) := ready[k];
        var record := TraceRecord(n, inputs, outcomes[k]);
        AbsorbingStep(p, exec, start, ready, k, State(pending, finished, available, trace, announced));
        pending := RemoveFirst(pending, n);
        finished := finished + {n};
        ghost var before := trace;
        trace := trace + [record];
        available := available + Ports(n, outcomes[k].Outputs());
        if LacksResult(g, w.reg, record) {
          AbsorbingExtends(p, exec, start, ready, k + 1, State(pending, finished, available, trace, announced));
          LackingRunRaises(g, w.reg, trace, Run(p, exec).trace);
          return Raised, announced;
        }
        ResultStep(g, w.reg, before, record);
        if outcomes[k].Done? && ResultSlot(g, w.reg, n).Some? {
          result := result[n := inputs[ResultSlot(g, w.reg, n).value]];
        }
      }
      AbsorbingDone(p, exec, start, ready, State(pending, finished, available, trace, announced));
      AbsorbedAll(p, exec, start, ready, State(pending, finished, available, trace, announced));
      RoundShrinks(exec, start, ready);
    }
    if !stuck {
      GoingDone(p, exec, State(pending, finished, available, trace, announced));
    }
    ConcludeFinished(g, w.reg, trace);
    return Finished(result, trace), announced;
  }

  lemma NothingLacks(g: GraphSpec, reg: Registry)
    ensures NoneLacks(g, reg, []) && ResultOf(g, reg, []) == map[]
  {
  }

  lemma GoingIsDistinct(p: Plan, exec: Exec, st: State)
    requires Going(p, exec, st)
    ensures Distinct(st.pending)
  {
  }

  lemma AbsorbedAll(p: Plan, exec: Exec, start: State, ready: seq<(Id, Inputs)>, st: State)
    requires Absorbing(p, exec, start, ready, |ready|, st)
    ensures st == AbsorbAll(exec, start, ready, |ready|)
  {
  }

  /** `asyncio.gather`: results in submission order. */
  method ExecuteReady(w: World, g: GraphSpec, ready: seq<(Id, Inputs)>) returns (outcomes: seq<Outcome>)
    requires UniqueIds(g)
    ensures |outcomes| == |ready|
    ensures forall k | 0 <= k < |ready| :: outcomes[k] == NodeExec(w, g)(ready[k].0, ready[k].1)
    decreases GraphDepth(g), 3
  {
    outcomes := [];
    var nodesById := NodesById(g.nodes);
    for k := 0 to |ready|
      invariant |outcomes| == k
      invariant forall j | 0 <= j < k :: outcomes[j] == NodeExec(w, g)(ready[j].0, ready[j].1)
    {
      var (n, inputs) := ready[k];
      var outcome := Failed("no such node");
      if n in nodesById {
        outcome := RunNode(w, g, nodesById[n], inputs);
      }
      outcomes := outcomes + [outcome];
    }
  }

  // ----- Node bodies -----

  method RunNode(w: World, g: GraphSpec, n: NodeSpec, inputs: Inputs) returns (o: Outcome)
    requires UniqueIds(g) && n in g.nodes
    ensures o == ExecuteNode(w, g, n, inputs)
    decreases GraphDepth(g), 2
  {
    if n.typ !in w.reg {
      return Failed("unregistered type");
    }
    match w.reg[n.typ].body {
      case Primitive(run) => o := run(n, inputs, ResourcesOf(w, g));
      case LoopBody =>
        MemberDepth(g.nodes, n);
        o := RunLoop(w, n, inputs);
      case WebhookBody => o := RunWebhook(w, g, n);
    }
  }

  method RunWebhook(w: World, g: GraphSpec, n: NodeSpec) returns (o: Outcome)
    ensures o == ExecuteWebhook(w, g, n)
    decreases GraphDepth(g), 1
  {
    var resources := ResourcesOf(w, g);
    var adapters := At(resources.subNodes, n.id, "trigger_adapter");
    if |adapters| != 1 {
      return Failed("expected exactly one trigger_adapter");
    }
    if adapters[0] !in resources.nodesById {
      return Failed("no such node");
    }
    var adapter := resources.nodesById[adapters[0]];
    if adapter.typ !in w.reg {
      return Failed("unregistered type");
    }
    var inputs := map["payload" := if n.id in w.payloads then w.payloads[n.id] else Object(map[])];
    match w.reg[adapter.typ].body {
      case Primitive(run) => o := run(adapter, inputs, resources);
      case LoopBody =>
        MemberDepth(g.nodes, adapter);
        o := RunLoop(w, adapter, inputs);
      case WebhookBody => o := Failed("a trigger is not an adapter");
    }
  }

  /** The copy of an iteration: every node whose id is the entry's gets the value. */
  method SeedCopy(g: GraphSpec, entry: Id, v: Value) returns (copy: GraphSpec)
    ensures copy == Seed(g, entry, v)
  {
    var nodes := g.nodes;
    for i := 0 to |nodes|
      invariant |nodes| == |g.nodes|
      invariant forall j | 0 <= j < i :: nodes[j] == SeedNode(g.nodes[j], entry, v)
      invariant forall j | i <= j < |nodes| :: nodes[j] == g.nodes[j]
    {
      if nodes[i].id == entry {
        nodes := nodes[i := nodes[i].(config := nodes[i].config["value" := Plain(v)])];
      }
    }
    copy := g.(nodes := nodes);
    assert copy.nodes == Seed(g, entry, v).nodes;
  }

  lemma LoopRefused(w: World, n: NodeSpec, inputs: Inputs)
    ensures ParseLoop(n.config).None? ==> ExecuteLoop(w, n, inputs) == Failed("invalid config")
    ensures ParseLoop(n.config).Some? && !Valid(ParseLoop(n.config).value.graph, w.reg, w.Directory(None)) ==>
              ExecuteLoop(w, n, inputs) == Failed("loop sub_graph is invalid")
  {
    hide Valid, Iterate;
  }

  lemma LoopStarts(w: World, n: NodeSpec, inputs: Inputs)
    requires ParseLoop(n.config).Some? && Valid(ParseLoop(n.config).value.graph, w.reg, w.Directory(None))
    ensures var cfg := ParseLoop(n.config).value;
            ExecuteLoop(w, n, inputs) ==
            if |EntryIds(cfg.graph.nodes)| != 1 then Failed("loop sub_graph needs one text_input")
            else if "value" !in inputs then Failed("missing input")
            else Iterate(w, cfg, EntryIds(cfg.graph.nodes)[0], inputs["value"], 0, [])
  {
    hide Valid, Iterate;
  }

  lemma LoopIsDeeper(n: NodeSpec, cfg: LoopConfig)
    requires ParseLoop(n.config) == Some(cfg)
    ensures GraphDepth(cfg.graph) < NodeDepth(n)
  {
  }

  lemma IterateStep(w: World, cfg: LoopConfig, entry: Id, v: Value, i: nat, children: seq<seq<TraceRecord>>,
                    run: RunOutcome)
    requires i < cfg.maxIterations && run == RunGraph(w, Seed(cfg.graph, entry, v))
    ensures Iterate(w, cfg, entry, v, i, children) ==
            match run
            case Raised => Failed("loop iteration failed")
            case Finished(result, trace) =>
              match OnlyValue(result)
              case None => Failed("loop sub_graph must produce exactly one result value")
              case Some(next) =>
                if Fired(cfg.stop, trace) then Done(map["value" := next], Some(children + [trace]))
                else Iterate(w, cfg, entry, next, i + 1, children + [trace])
  {
    hide Fired, RunGraph;
  }

  method RunLoop(w: World, n: NodeSpec, inputs: Inputs) returns (o: Outcome)
    ensures o == ExecuteLoop(w, n, inputs)
    decreases NodeDepth(n), 0
  {
    hide Valid, Iterate, ExecuteLoop, RunGraph, UniqueIds, Seed, Fired, OnlyValue, ParseLoop, EntryIds, Run, PlanOf,
      NodeExec, GraphDepth;
    var parsed := ParseLoop(n.config);
    LoopRefused(w, n, inputs);
    if parsed.None? {
      return Failed("invalid config");
    }
    var cfg := parsed.value;
    var issues := ValidateGraph(cfg.graph, w.reg, w.Directory(None));
    if issues != [] {
      return Failed("loop sub_graph is invalid");
    }
    LoopIsDeeper(n, cfg);
    LoopStarts(w, n, inputs);
    if |EntryIds(cfg.graph.nodes)| != 1 {
      return Failed("loop sub_graph needs one text_input");
    }
    var entry := EntryIds(cfg.graph.nodes)[0];
    if "value" !in inputs {
      return Failed("missing input");
    }
    var value := inputs["value"];
    var children: seq<seq<TraceRecord>> := [];
    for i := 0 to cfg.maxIterations
      invariant ExecuteLoop(w, n, inputs) == Iterate(w, cfg, entry, value, i, children)
    {
      var copy := SeedCopy(cfg.graph, entry, value);
      SeedDepth(cfg.graph, entry, value);
      SeedUnique(cfg.graph, entry, value);
      var run, announced := RunValidated(w, copy);
      IterateStep(w, cfg, entry, value, i, children, run);
      if run.Raised? {
        return Failed("loop iteration failed");
      }
      children := children + [run.trace];
      OnlyValueIsOne(run.result);
      if |run.result| != 1 {
        return Failed("loop sub_graph must produce exactly one result value");
      }
      var k :| k in run.result;
      value := run.result[k];
      if Fired(cfg.stop, run.trace) {
        return Done(map["value" := value], Some(children));
      }
    }
    IterateEnds(w, cfg, entry, value, children);
    return Done(map["value" := value], Some(children));
  }

  lemma IterateEnds(w: World, cfg: LoopConfig, entry: Id, v: Value, children: seq<seq<TraceRecord>>)
    ensures Iterate(w, cfg, entry, v, cfg.maxIterations, children) == Done(map["value" := v], Some(children))
  {
  }

  /** A result map has one entry exactly when the loop can take its value. */
  lemma OnlyValueIsOne(result: map<Id, Value>)
    ensures |result| == 1 <==> OnlyValue(result).Some?
    ensures |result| == 1 ==> forall k | k in result :: OnlyValue(result) == Some(result[k])
  {
    if |result| == 1 {
      assert |result.Keys| == 1;
      var k :| k in result;
      assert |result.Keys - {k}| == 0;
      assert result.Keys == {k};
    }
    if k :| result.Keys == {k} {
      assert |result.Keys| == 1;
    }
  }

  /** `run_graph`: validate for the running user, then run the rounds. */
  method RunValidated(w: World, g: GraphSpec) returns (r: RunOutcome, announced: seq<seq<Id>>)
    requires UniqueIds(g)
    ensures r == RunGraph(w, g)
    ensures r.Finished? ==> announced == Run(PlanOf(g, w.reg), NodeExec(w, g)).starts
    decreases GraphDepth(g), 5
  {
    hide Valid, Conclude, Run, PlanOf;
    var issues := ValidateGraph(g, w.reg, w.Directory(w.user));
    if issues != [] {
      return Raised, [];
    }
    r, announced := RunRounds(w, g);
  }
}
