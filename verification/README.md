# A verified model of the graph engine

The repository runs graphs of nodes. This project models the parts of it that decide what a graph
means and when its parts run, and proves what those parts are for:

- **Validation and execution.** `Models` is what the file models let through; `Rules` and
  `Validator` are the static checks and their aggregation; `Engine` is `run_graph` with its round
  loop over `pending`, `finished`, `available` and `trace`, together with the node bodies that
  re-enter or steer it (`loop`, `webhook_trigger`). `Schedule` is the same loop as a function on
  states and `Interpreter` the same recursion as a function on graphs; the methods of `Engine` are
  proved equal to them, and terminate together on the nesting depth of loops. `Bodies` says what the
  registered bodies are called with, apart from `Interpreter`. `Denotation` says what a graph means
  without any schedule: a recursive evaluator along the winning data edges, whose well-founded order
  is the one the cycle check supplies. `Soundness` is the invariant of the round loop, `Refinement`
  proves that the loop computes exactly the meaning, and when it does not; `Validated`, `Orders`,
  `Causes`, `Timing`, `Typing`, `Loops`, `SubNodes`, `Branch` and `Stranding` draw the consequences.
- **Kahn's algorithm and layout.** `Digraph` has the shared invariant of Kahn's algorithm and the
  theory of walks and cycles behind it, `Topo` is `kahn_order`, `Layout` is the canvas layout.
- **Approvals.** `Approvals` interleaves requesters, resolvers and run cleanup at every access to
  the shared maps, for any number of threads.
- **Agents.** `Agent` is the reasoning loop against an arbitrary model and arbitrary tools,
  `AgentRun` what a whole run leaves behind, `Activity` the live activity events and the reference
  counter shared by concurrent agents, `AgentCluster` the lookup of an agent's sub-nodes.
- **Connections and chunking.** `Connections` (the lookups of validator and resolver) and
  `Chunking`.

A node body is an arbitrary deterministic function of its node, its gathered inputs and the lookup
tables of the run; it fails or returns a partial map of outputs. The model of a chat model and of a
tool is an arbitrary function of the call number and its arguments. Nothing about bodies is assumed
unless a statement says so.

Where the code and its comments disagree the model follows the code:

- The comment at `backend/execution/engine.py:182-185` calls the early exit of the round loop
  unreachable for a validated graph. It is not. `Stranding.AcceptedNodeIsStranded` gives, for any
  three names, an accepted graph whose run leaves a node behind that lacks nothing, and
  `Orders.SafeOrderIsExactForGraphs` the exact condition on the node list and the edges of an
  accepted graph under which the engine computes its meaning for all required flags and all node
  bodies. If every edge-fed slot is required no condition is needed
  (`Validated.ValidatedRunIsMeaning`).
- `backend/execution/approvals.py:99-105` promises that remembered decisions do not outlive their
  run. That holds when a remembering resolver shares its id with no other resolver
  (`Approvals.CleanupIsFinal`), and otherwise can fail from every state in which a request waits
  (`Approvals.SecondResolverLeaks`).
- `backend/nodes/agent.py:107-114` says that a tool call never raises. The outputs are written as
  JSON text outside of the `try`: `Agent.RunTool` raises if and only if the tool's body succeeds
  with outputs that have no JSON form, and `Agent.ForeignOutputRaises` gives such inputs. Whether a
  shipped body returns any is not claimed; `AgentRun.WritableNeverRaises` is the promise for bodies
  that do not.

## Model

| member | source | states |
|---|---|---|
| Models.ParseIsExact | backend/schema/models.py:29-41 | an edge is accepted exactly if it is a data edge or a sub-node edge written out, and is read back as what was written |
| Models.FindDuplicates | backend/schema/models.py:63-73 | finds exactly the ids that more than one node carries; it finds none if and only if the ids are distinct |
| Models.ReadGraph | backend/schema/models.py:58-73 | a graph is accepted exactly if every edge has the shape of its kind and no id is repeated |
| Topo.KahnOrder | backend/schema/topo.py:8-36 | with self-loops, parallel edges and edges outside the node set: `order` and `remaining` partition the ids, every retained edge into `order` starts earlier in `order`, and `remaining` is exactly the set of ids on a directed cycle or reachable from one |
| Digraph.KahnStart | backend/schema/topo.py:8-24 | the counted indegrees and the initial queue establish the invariant of Kahn's loop |
| Digraph.KahnPop | backend/schema/topo.py:25-28 | taking an id off the queue keeps the invariant |
| Digraph.KahnDiscount | backend/schema/topo.py:28-33 | following one outgoing edge keeps the invariant, parallel edges and self-loops included |
| Digraph.KahnDone | backend/schema/topo.py:34-36 | with an empty queue the unnumbered ids are exactly those on or behind a cycle |
| Digraph.AcyclicHasRanking | backend/validation/rules.py:208-218 | an acyclic graph has a numbering that climbs along every edge: the order the evaluator recurses on |
| Rules.CheckStructural | backend/validation/rules.py:19-48 | reports exactly the dangling edge ends, and hands on exactly the data edges between existing nodes |
| Rules.CheckUnregisteredTypes | backend/validation/rules.py:51-63 | reports exactly the nodes whose type is not registered |
| Rules.CheckRequiredInputs | backend/validation/rules.py:82-115 | reports exactly the required slots of scheduled nodes that have neither an edge nor a literal |
| Rules.CheckTypeMismatches | backend/validation/rules.py:118-205 | reports exactly the data edges whose slots do not exist or differ in type, with ports mirrored from a sub-node where the type says so |
| Rules.CheckCycles | backend/validation/rules.py:208-218 | reports nothing if and only if the data edges between existing nodes form no directed cycle |
| Rules.CheckConfigSchema | backend/validation/rules.py:362-379 | reports exactly the registered nodes whose config their type refuses |
| Rules.CollectSubNodes | backend/validation/rules.py:281-334 | reports exactly the sub-node edges with an undeclared slot, a wrong role or a data edge into their source, and collects the accepted ones per slot in edge order |
| Rules.CheckSubNodeEdges | backend/validation/rules.py:264-359 | those complaints and exactly the slots whose number of accepted sub-nodes breaks their cardinality |
| Connections.ResolveMeans | backend/connections/store.py:126-149 | a name, after the caller's substitution, finds the caller's own first profile of it, else the first global one, and nothing exactly if there is neither: never somebody else's |
| Connections.ReferencedMeans | backend/connections/resolver.py:24-39 | the referenced names are exactly the texts under "connection" or under a key ending in "_connection" |
| Connections.CheckMissingConnections | backend/validation/rules.py:221-261 | although each name is looked up once, reports exactly the references that no profile of the caller and no global one answers |
| Connections.ResolveConnectionProfiles | backend/connections/resolver.py:83-104 | raises exactly when the validator's check, over the same store, user and mappings, would have reported something; otherwise holds for every referenced name the profile that answers it: the caller's own, or a global one only if the caller has none |
| Validator.ValidateGraph | backend/validation/validator.py:21-51 | all rules together report nothing if and only if the graph is well formed, in clauses about its nodes, edges and types alone: edges join nodes, each required slot has a data edge or a literal, each data edge joins two slots of one type, data edges form no cycle, each sub-node edge fits and each slot's count is right |
| Validator.SubNodesClean | backend/validation/rules.py:264-359 | once all types are registered and no edge dangles, the two-pass sub-node check is silent exactly when every sub-node edge fits and every slot's count is right |
| Denotation.ScanMeaning | backend/execution/engine.py:146-169 | over any prefix of its slots `gather_inputs` blocks, waits or collects exactly as the values that arrive there demand |
| Denotation.GatherMeaning | backend/execution/engine.py:135-169 | with faithful tables, a blocked node is one the evaluator skips, and a ready node's gathered inputs are the evaluator's |
| Soundness.ClassifyOk | backend/execution/engine.py:171-180 | one pass, with blocked nodes counting as finished for the nodes after them, settles only what the evaluator settles and leaves waiting only nodes with an unsettled source |
| Soundness.AbsorbInv | backend/execution/engine.py:197-206 | recording one executed node keeps the tables faithful and the trace true |
| Soundness.RoundInv | backend/execution/engine.py:171-208 | a whole round keeps the invariant of the loop |
| Soundness.RunIsFinal | backend/execution/engine.py:171-210 | a run ends, with every record true and every pending node stranded by an edge from a node that is pending or never scheduled |
| Refinement.ShieldedComputesMeaning | backend/execution/engine.py:118-210 | if the winning edges into optional slots, and those on the way to their sources, are safe (from a scheduled node; from an unfed one if they point backwards), then wherever the list puts the sources of required slots and whatever the bodies do, the executed nodes, their inputs and outcomes are the evaluator's |
| Refinement.RunComputesMeaning | backend/execution/engine.py:118-210 | so for every order of the node list if every edge-fed slot is required |
| Refinement.SafeOrderComputesMeaning | backend/execution/engine.py:135-185 | with optional slots the same holds, with nothing left pending, when no winning edge leaves a sub-node and each backward edge starts at a node without incoming edges |
| Refinement.SafeOrderIsExact | backend/execution/engine.py:171-210 | that condition on all winning edges holds if and only if the engine computes the meaning for all required flags and all node bodies |
| Orders.SafeOrderIsExactForGraphs | backend/execution/engine.py:171-210 | the same for `run_graph` and accepted graphs: the condition holds if and only if the run records what the graph means under every registry that also accepts it and differs only in required flags and bodies |
| Refinement.BackwardEdgeLoses | backend/execution/engine.py:182-185 | any backward edge from a node with an incoming edge loses a node, for suitable flags and any bodies that produce nothing |
| Refinement.ForeignEdgeLoses | backend/execution/engine.py:131-132 | so does any edge that leaves a node that is never scheduled |
| Stranding.AcceptedNodeIsStranded | backend/execution/engine.py:182-185 | for any three names, an accepted graph whose run ends normally through the early exit with a node still pending that the evaluator fires |
| Validated.ValidRanks | backend/validation/rules.py:208-218 | the cycle check, which sees all data edges, supplies an order for the winning ones |
| Validated.ValidCovers | backend/validation/rules.py:82-115 | in an accepted graph every required slot of a scheduled node has a winning edge or a literal |
| Validated.PlanIsOfGraph | backend/execution/engine.py:118-132 | what the scheduler reads is the graph: the nodes no sub-node edge leaves, in list order, each with the slots its registered type gives it and its literals, each slot fed by the last data edge listed |
| Validated.RecordsAreOfBodies | backend/execution/engine.py:20-68 | only an accepted graph runs to an end, and every record is the registered body's outcome on the recorded inputs: a primitive body's on exactly these inputs and the run's tables, a loop's from its input `value`, a trigger's adapter's on the posted payload |
| Bodies.NodeRuns | backend/execution/engine.py:19-68 | the same for every call of every node, with what a loop and a trigger do told without the interpreter |
| Bodies.ResourcesAreTables | backend/execution/engine.py:287-295 | the tables hold exactly the run's own nodes by id, its sub-nodes per root and slot in edge order, and the posted payloads |
| Bodies.PortsAreOf | backend/validation/rules.py:118-148 | a node's ports in validation are its own outputs, or those of the first sub-node wired into the slot it mirrors |
| Validated.ShieldedRunIsMeaning | backend/execution/engine.py:118-210 | an accepted graph with shielded optional slots: the run records exactly what the evaluator fires, the evaluator being over the graph's own plan and the registered bodies; its `result` holds exactly the inputs the evaluator gives the result nodes, and it raises exactly if a fired, successful node lacks the input its type names as the result |
| Validated.ValidatedRunIsMeaning | backend/execution/engine.py:118-210 | the same equality of records, `result` and raising for every order of the node list if the edge-fed slots are required |
| Validated.OrderedRunIsMeaning | backend/execution/engine.py:135-185 | the same equality for an accepted graph with optional slots in a safe order, and nothing is left pending |
| Validated.OrderedIsSafe | backend/execution/engine.py:135-185 | a list in topological order, with no data edge out of a sub-node, is a safe order |
| Validated.AnnouncedAreEarliest | backend/execution/engine.py:171-208 | the rounds `run_graph` announces for an accepted graph with required edges: none is empty, together they are the trace, and each node stands in the round of its longest chain |
| Validated.ValidatedSkipHasCause | backend/execution/engine.py:146-185 | in every run of an accepted graph a scheduled node without a record has a path of winning edges back to a node that ran without producing the slot used, or to one never scheduled |
| Causes.SkipHasCause | backend/execution/engine.py:146-185 | the same for any plan whose required slots are covered: a missing edge is never the cause |
| Causes.TraceProvenance | backend/execution/engine.py:131-208 | at most one record per scheduled node, none for sub-nodes, and every edge-fed input equals an output of a strictly earlier record |
| Causes.NeededIsCarried | backend/execution/engine.py:146-169 | if a node runs, every port it depends on through required slots, however far back, carried a value |
| Causes.BranchesExclude | backend/nodes/conditional_branch.py:47-51 | no executed node depends through required slots on both of two outputs that never fire together |
| Branch.ExecuteBranch | backend/nodes/conditional_branch.py:26-51 | a branch that succeeds returns its input on exactly one of its two slots |
| Branch.FiresByCondition | backend/nodes/conditional_branch.py:20-51 | a branch whose condition parses passes its input to the true slot exactly when the condition holds of it (an occurrence in a text, an item of a list, a key of an object, this very text), to the false slot exactly when it does not, and nowhere exactly when it has no answer |
| Branch.BranchFails | backend/nodes/conditional_branch.py:26-51 | a branch fails exactly if it has no condition, no input, a condition that does not parse, or one without an answer |
| Branch.WithinIsOccurrence | backend/nodes/conditional_branch.py:20-23 | `contains` on text is the existence of an occurrence |
| Branch.BranchKeepsTypes | backend/nodes/conditional_branch.py:37-51 | for every typing of values, a branch whose input and outputs have one type meets the obligation that type soundness puts on bodies |
| Branch.ValidatedBranchesExclude | backend/nodes/conditional_branch.py:47-51 | in a run of an accepted graph no executed node requires both outputs of a conditional branch |
| Timing.EarliestRounds | backend/execution/engine.py:171-208 | every node executed in round r has a longest chain of winning edges of exactly r, counting rounds from 0, and no announced round is empty |
| Timing.FewestRounds | backend/execution/engine.py:171-208 | no schedule of the same nodes that respects the winning edges needs fewer rounds |
| Engine.GatherInputs | backend/execution/engine.py:135-169 | the loop over the slots, with its early exits, is the gathering of the specification |
| Engine.SortPending | backend/execution/engine.py:172-180 | removing blocked nodes from the list while walking a copy of it is the specified pass |
| Engine.RunRounds | backend/execution/engine.py:118-210 | the mutable round loop ends in the state and result of the specified run, and announces exactly its rounds |
| Engine.ExecuteReady | backend/execution/engine.py:190-195 | the outcomes of a round, in submission order, are those of the specified bodies |
| Engine.RunLoop | backend/nodes/loop.py:55-101 | the loop over mutable `value` and `child_traces`, each turn on a fresh copy, is the interpreter's iteration |
| Engine.RunValidated | backend/execution/engine.py:213-299 | `run_graph` terminates on every finite nesting of loops, computes the interpreter's outcome and announces the rounds of the specified run |
| Interpreter.SeedDepth | backend/nodes/loop.py:73-76 | writing a value into a copy of a sub-graph keeps its nesting depth: what termination rests on |
| Loops.SeedIsCopy | backend/nodes/loop.py:73-76 | each turn runs the one copy of the stored sub-graph that equals it field by field, except that the entry node's config holds the loop's current value under "value" |
| Loops.ParseLoopMeans | backend/nodes/loop.py:25-28 | the bound is the configured one or 10, the stop slot the configured one or none, the graph the configured one with distinct ids |
| Loops.EntryMeans | backend/nodes/loop.py:31-47 | the entry is the only node of type "text_input" |
| Loops.LoopIsIterate | backend/nodes/loop.py:69-101 | a loop returns the k-fold iterate of its sub-graph's value function with exactly k child traces, where k is the first turn whose trace fires the stop slot, else the bound; it fails exactly if a turn before that raises or gives no single value |
| Loops.LoopRefuses | backend/nodes/loop.py:61-69 | a loop without a value, or whose config names no valid sub-graph with one entry, fails |
| SubNodes.TableIsWired | backend/execution/engine.py:287-290 | the table the engine builds lists, per slot, the sub-nodes validation counted, in edge order |
| SubNodes.SlotsAreFilled | backend/validation/rules.py:336-359 | in an accepted graph every "one" slot holds one sub-node and every "zero_or_one" slot at most one, each registered and of the wanted role |
| SubNodes.WebhookRunsItsAdapter | backend/nodes/webhook_trigger.py:46-69 | an accepted trigger runs the one adapter wired to it, on its payload, be its body primitive or a loop; its ports in validation are that adapter's, and its count error is unreachable |
| AgentCluster.ValidAgentFindsCluster | backend/nodes/agent.py:168-224 | in an accepted graph an agent finds exactly the model, memory, tool group and tools wired to it, each of its role; none of the count or lookup errors can occur |
| Typing.EdgePassesType | backend/validation/rules.py:151-205 | a checked data edge passes a value of its source port's type into a slot of that type |
| Typing.RunIsTyped | backend/execution/engine.py:143-169 | if literals fit their slots and bodies keep types on well-typed inputs, every input of every record, edge-fed or literal, has its slot's declared type, by induction along the trace |
| Typing.NodeIsTyped | backend/nodes/webhook_trigger.py:46-69 | on well-typed inputs a scheduled node returns what its ports in validation promise, whether its body is primitive, a loop or a trigger that runs its adapter |
| Typing.LoopIsTyped | backend/nodes/loop.py:55-101 | a loop returns a value of its declared type, derived from the runs of its sub-graph: nothing is assumed of the loop itself |
| Typing.WholeRunIsTyped | backend/validation/rules.py:118-205 | type soundness of `run_graph` over all nested loops and triggers, by induction on nesting depth: every input of every record has its slot's declared type |
| Approvals.StepInv | backend/execution/approvals.py:53-105 | every action of every thread keeps the protocol's invariant |
| Approvals.ProtocolSafety | backend/execution/approvals.py:53-96 | over all interleavings: a set event has a decision, a woken request returns a decision some resolver of its id supplied, a fast-path answer was given with remember=True for that run and tool, and once a resolve has returned True its request is not blocked |
| Approvals.NoMoreAsking | backend/execution/approvals.py:59-61 | after a remembering resolve has returned, no later request for that run and tool is ever pending until the run is cleared |
| Approvals.LateResolverFindsNothing | backend/execution/approvals.py:87-90 | a resolver that comes after the request has returned can only return False, whatever happens meanwhile |
| Approvals.ReturnedIsGone | backend/execution/approvals.py:67-72 | a request that has returned is no longer pending |
| Approvals.CleanupIsFinal | backend/execution/approvals.py:99-105 | nothing remembered for a run survives its cleanup if no remembering resolver shares its id |
| Approvals.SecondResolverLeaks | backend/execution/approvals.py:87-96 | otherwise: from any state with a waiting request two resolvers of it can leave a decision behind, whatever they decide |
| Activity.Counter.Notify | backend/api/runs.py:119-126 | one locked update: the counts are those of the whole history and the published ids its positive ones |
| Activity.CounterIsExact | backend/api/runs.py:119-126 | on a bracketed history the counter equals the number of open brackets, and its clamp cuts nothing off |
| Activity.InterleavingBracketed | backend/api/runs.py:104-128 | any interleaving of bracketed callers is bracketed |
| Activity.CounterShowsOpen | backend/api/runs.py:104-128 | for every interleaving of any number of callers the counter shows exactly the ids with an open bracket, and ends empty |
| Activity.ClampNeverCuts | backend/api/runs.py:121-125 | every lowering update of such an interleaving finds a positive count |
| AgentRun.ConcurrentAgentsAreCounted | backend/api/runs.py:104-128 | at every moment of every interleaving of agents, finished or not, the counter shows exactly the sub-nodes some agent is inside |
| AgentRun.InUseIsShown | backend/api/runs.py:104-128 | whatever the other agents do, the counter shows what an agent has open, such as its model during a model call |
| AgentRun.AgentsEmit | backend/nodes/agent.py:257-350 | whatever an agent has emitted by some moment, on whatever exit it ends, is activity of the kind that theorem takes |
| AgentRun.ExecuteAgent | backend/nodes/agent.py:226-354 | for every model and tool box, on every exit: the transcript is that of a history in which each turn is the model's own reply, and well formed; the totals are sums over the replies; the k-th call left the record and the tool message of its own body's outcome, or of its refusal; at each model call exactly the model and the memory were open, at each started tool call exactly the group and the tool; each is activated once per call or batch; every bracket is closed |
| AgentRun.RunIsAccounted | backend/nodes/agent.py:315-346 | what each call left behind, by cases on its body's outcome |
| AgentRun.RunIsActivated | backend/nodes/agent.py:257-274 | how often each sub-node is activated over a run, coinciding ids added up |
| Agent.Converse | backend/nodes/agent.py:242-354 | the reasoning loop with its exits, and what was open at each model call and each started tool call |
| Agent.CallModel | backend/nodes/agent.py:257-274 | the model and the memory, and nothing else, are open while the model is called |
| Agent.TranscriptIsWellFormed | backend/nodes/agent.py:276-346 | each assistant message with calls is followed by exactly one tool message per call with the same ids and order, no tool message stands alone, and at most one nudge occurs, before any call |
| Agent.RunCalls | backend/nodes/agent.py:317-346 | the answers, child traces and activity of a batch are those of its calls in order, up to the one that raises |
| Agent.ReportsAreAnswers | backend/nodes/agent.py:317-346 | being answered call by call, unlisted names with a refusal, up to a call that raises, determines a batch's reports |
| Agent.RunTool | backend/nodes/agent.py:101-151 | a tool call raises if and only if the tool's body succeeds with outputs that JSON has no form for; a failing body becomes a record and a text |
| Agent.ForeignOutputRaises | backend/nodes/agent.py:137-151 | a listed tool whose output holds such an object, however deep, makes the call raise |
| Agent.UnwritableHoldsForeign | backend/nodes/agent.py:137-151 | and only such an object does: outputs JSON cannot write hold one somewhere |
| AgentRun.WritableNeverRaises | backend/nodes/agent.py:101-151 | if the listed tools return only what JSON can write, no agent run ends by a raising tool call |
| Agent.ActivityIsBracketed | backend/nodes/agent.py:257-274 | the activity of any history opens and closes every bracket properly, with or without a last model call |
| Agent.Windowed | backend/nodes/agent.py:53-58 | the model sees the last messages, as many as the window allows |
| Layout.ComputeLevels | frontend/src/graph/layout.ts:19-51 | in an acyclic graph every node's level is the length of the longest walk to it; it terminates on every graph |
| Layout.PlaceAll | frontend/src/graph/layout.ts:53-61 | for any levels, no two nodes share a position; each stands in the column of its level, in the row of the number of earlier nodes of that level |
| Layout.ComputeLayout | frontend/src/graph/layout.ts:18-62 | no two nodes share a position, cyclic or not; in an acyclic graph the column is that of the longest walk |
| Layout.ArcsGoRight | frontend/src/graph/layout.ts:53-60 | so every edge goes at least one column to the right |
| Chunking.ChunkText | backend/nodes/ingest_document.py:43-55 | for every accepted size and overlap, with a stride of size less overlap: ceil(length / stride) chunks, each a non-empty slice of at most the size, each beyond its first stride a prefix of the next, and the first strides together are the text |
| Chunking.SlicesJoin | backend/nodes/ingest_document.py:43-55 | the first strides of consecutive slices make up the text as far as they reach |
| Chunking.SlicesOverlap | backend/nodes/ingest_document.py:43-55 | each slice beyond its first stride is a prefix of the next |

## Left out

- Real node bodies (model calls, code execution, MCP, search, image, vector and connection clients): arbitrary functions here.
- Determinism: a body is a function of its node, inputs and tables, so a body that answers the same call differently twice is not covered.
- Concurrency inside a round: `asyncio.gather` is taken as returning results in submission order.
- Timestamps, run ids, `node_type`, token cost and side-effect flags of trace records, and the wording of issues and errors.
- The `run_id`, `on_trace_record` and `running_node_ids` bookkeeping of `backend/api/runs.py`; `on_round_start` is the list of announced rounds.
- The file format of graphs: field defaults, aliases and the version; `Models` starts from fields already read.
- Coercion of loop configs by the config model ("3" for 3, a graph given as plain JSON): only values of the declared type are accepted.
- A `condition` is matched against its pattern by an arbitrary function; stripping and the regular expression are not modelled.
- Termination of agent tool calls: sub-node edges may form a cycle, so tools are arbitrary functions and nothing is claimed of nested agents.
- An adapter whose own type is a webhook trigger: the validator admits one only if some type both is an adapter and mirrors one, which no shipped type does; the model fails that call.
- Registries: loops and triggers look types up in the default registry, the engine in the one it is given; the model has one registry.
- Slot mappings in the engine's revalidation: it passes none, so a graph accepted with mappings on submit can be refused there.
- The connection store's mutations, encryption and files: a standalone map.
- `NodeRegistry.register`, trigger activation and generated type names.
- HTTP routes, authentication, persistence and the canvas apart from its layout.
- Typing.WholeRunIsTyped: a trigger's payload is not taken as typed, since the code hands any JSON to a slot declared TEXT; adapters are asked to keep their declaration on every payload instead. Records inside child traces are covered by the theorem for the sub-graph, not restated for child traces.
- Timing.EarliestRounds: stated for required edge-fed slots only; a node with optional slots may run later than its executed sources demand.
- Layout.ComputeLayout: in a cyclic graph the column of a node on or behind a cycle is not characterised.
