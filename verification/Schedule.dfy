/** The wavefront scheduler of `_run_graph_async` (backend/execution/engine.py) as a function
on states: one pass sorts the pending nodes, one round runs every ready node. */
module Schedule {
  import opened Digraph
  import opened Graph

  datatype Port = Port(node: Id, slot: Slot)

  /** What the scheduler looks up: the listed nodes that are not sub-nodes, their input slots,
      the winning data edge of each slot, and the literal slot values. */
  datatype Plan = Plan(
    queue: seq<Id>,
    slots: map<Id, seq<InputSlot>>,
    incoming: map<(Id, Slot), Port>,
    literals: map<Id, map<Slot, Value>>)
  {
    function Slots(n: Id): seq<InputSlot> {
      if n in slots then slots[n] else []
    }

    function Literals(n: Id): map<Slot, Value> {
      if n in literals then literals[n] else map[]
    }
  }

  /** A node body, seen by the scheduler: any function of the node and its gathered inputs. */
  type Exec = (Id, Inputs) -> Outcome

  datatype State = State(
    pending: seq<Id>,
    finished: set<Id>,
    available: map<Port, Value>,
    trace: seq<TraceRecord>,
    starts: seq<seq<Id>>)

  function Initial(p: Plan): State {
    State(p.queue, {}, map[], [], [])
  }

  // ----- gather_inputs -----

  datatype Supply = Given(value: Value) | Never | NotYet
  datatype Gathered = Ready(inputs: Inputs) | Blocked | Waiting

  function SupplyOf(p: Plan, n: Id, finished: set<Id>, available: map<Port, Value>, name: Slot): Supply {
    if (n, name) !in p.incoming then
      if name in p.Literals(n) then Given(p.Literals(n)[name]) else Never
    else
      var port := p.incoming[(n, name)];
      if port in available then Given(available[port])
      else if port.node in finished then Never
      else NotYet
  }

  /** The first slot that settles the matter decides; `got` are the inputs collected before. */
  function Scan(p: Plan, n: Id, finished: set<Id>, available: map<Port, Value>, slots: seq<InputSlot>,
                got: Inputs): Gathered {
    if slots == [] then Ready(got)
    else
      match SupplyOf(p, n, finished, available, slots[0].name)
      case Given(v) => Scan(p, n, finished, available, slots[1..], got[slots[0].name := v])
      case Never => if slots[0].required then Blocked else Scan(p, n, finished, available, slots[1..], got)
      case NotYet => Waiting
  }

  function Gather(p: Plan, n: Id, finished: set<Id>, available: map<Port, Value>): Gathered {
    Scan(p, n, finished, available, p.Slots(n), map[])
  }

  // ----- One pass -----

  datatype Pass = Pass(kept: seq<Id>, finished: set<Id>, ready: seq<(Id, Inputs)>)

  /** A blocked node counts as finished for the nodes listed after it in the same pass. */
  function Classify(p: Plan, todo: seq<Id>, finished: set<Id>, available: map<Port, Value>): (r: Pass)
    ensures |r.kept| <= |todo|
    ensures forall i | 0 <= i < |r.ready| :: r.ready[i].0 in r.kept
  {
    if todo == [] then Pass([], finished, [])
    else
      var n := todo[0];
      match Gather(p, n, finished, available)
      case Blocked => Classify(p, todo[1..], finished + {n}, available)
      case Waiting =>
        var r := Classify(p, todo[1..], finished, available);
        Pass([n] + r.kept, r.finished, r.ready)
      case Ready(inputs) =>
        var r := Classify(p, todo[1..], finished, available);
        Pass([n] + r.kept, r.finished, [(n, inputs)] + r.ready)
  }

  // ----- One round -----

  function RemoveFirst(s: seq<Id>, x: Id): (r: seq<Id>)
    ensures |r| <= |s| && (x in s ==> |r| < |s|)
  {
    if s == [] then []
    else if s[0] == x then s[1..]
    else [s[0]] + RemoveFirst(s[1..], x)
  }

  /** Each output slot of n as a port. */
  function Ports(n: Id, outputs: map<Slot, Value>): (r: map<Port, Value>)
    ensures forall port :: port in r <==> port.node == n && port.slot in outputs
    ensures forall port | port in r :: r[port] == outputs[port.slot]
  {
    map slot | slot in outputs :: Port(n, slot) := outputs[slot]
  }

  function Absorb(st: State, n: Id, inputs: Inputs, outcome: Outcome): State {
    State(
      RemoveFirst(st.pending, n),
      st.finished + {n},
      st.available + Ports(n, outcome.Outputs()),
      st.trace + [TraceRecord(n, inputs, outcome)],
      st.starts)
  }

  function AbsorbAll(exec: Exec, st: State, ready: seq<(Id, Inputs)>, k: nat): (r: State)
    requires k <= |ready|
    ensures |r.pending| <= |st.pending|
    ensures k > 0 && ready[0].0 in st.pending ==> |r.pending| < |st.pending|
  {
    if k == 0 then st
    else
      var (n, inputs) := ready[k - 1];
      Absorb(AbsorbAll(exec, st, ready, k - 1), n, inputs, exec(n, inputs))
  }

  function ReadyIds(ready: seq<(Id, Inputs)>): (r: seq<Id>)
    ensures |r| == |ready| && forall i | 0 <= i < |r| :: r[i] == ready[i].0
  {
    seq(|ready|, i requires 0 <= i < |ready| => ready[i].0)
  }

  function Sorted(p: Plan, st: State): Pass {
    Classify(p, st.pending, st.finished, st.available)
  }

  /** The state after the pass, before the round's nodes run. */
  function AfterPass(p: Plan, st: State): State {
    State(Sorted(p, st).kept, Sorted(p, st).finished, st.available, st.trace, st.starts)
  }

  function AfterRound(p: Plan, exec: Exec, st: State): (r: State)
    ensures Sorted(p, st).ready != [] ==> |r.pending| < |st.pending|
  {
    var pass := Sorted(p, st);
    var st' := AfterPass(p, st);
    AbsorbAll(exec, st'.(starts := st.starts + [ReadyIds(pass.ready)]), pass.ready, |pass.ready|)
  }

  /** The round loop: until nothing is pending, or a pass finds nothing ready. */
  function Rounds(p: Plan, exec: Exec, st: State): State
    decreases |st.pending|
  {
    if st.pending == [] then st
    else if Sorted(p, st).ready == [] then AfterPass(p, st)
    else Rounds(p, exec, AfterRound(p, exec, st))
  }

  function Run(p: Plan, exec: Exec): State {
    Rounds(p, exec, Initial(p))
  }
}
