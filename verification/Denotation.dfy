/** What a graph means, independently of any schedule: each node is evaluated recursively along
its winning data edges. The scheduler is then proved to compute exactly this. */
module Denotation {
  import opened Digraph
  import opened Wrappers
  import opened Graph
  import opened Schedule

  datatype Verdict = Skipped | Ran(inputs: Inputs, outcome: Outcome)

  type Rank = Id -> nat

  /** Winning data edges climb: the numbering that an acyclicity check provides. */
  ghost predicate Ranks(p: Plan, rank: Rank) {
    forall k | k in p.incoming :: rank(p.incoming[k].node) < rank(k.0)
  }

  /** Slot names of a list of input slots. */
  ghost function Names(slots: seq<InputSlot>): set<Slot> {
    set s | s in slots :: s.name
  }

  /** The value that reaches one slot: along its winning edge if it has one, else its literal. */
  ghost function Arrival(p: Plan, exec: Exec, rank: Rank, n: Id, name: Slot): Option<Value>
    requires Ranks(p, rank)
    decreases rank(n), 0
  {
    if (n, name) in p.incoming then
      var port := p.incoming[(n, name)];
      if port.node !in p.queue then None
      else
        match Eval(p, exec, rank, port.node)
        case Skipped => None
        case Ran(_, outcome) =>
          if port.slot in outcome.Outputs() then Some(outcome.Outputs()[port.slot]) else None
    else if name in p.Literals(n) then Some(p.Literals(n)[name])
    else None
  }

  /** A node fires when every required slot receives a value; it then sees the received values. */
  ghost function Eval(p: Plan, exec: Exec, rank: Rank, n: Id): Verdict
    requires Ranks(p, rank)
    decreases rank(n), 1
  {
    if forall s | s in p.Slots(n) && s.required :: Arrival(p, exec, rank, n, s.name).Some? then
      var inputs := map name | name in Names(p.Slots(n)) && Arrival(p, exec, rank, n, name).Some?
                      :: Arrival(p, exec, rank, n, name).value;
      Ran(inputs, exec(n, inputs))
    else Skipped
  }

  /** What a port carries once its node is settled. */
  ghost function Carried(p: Plan, exec: Exec, rank: Rank, port: Port): Option<Value>
    requires Ranks(p, rank)
  {
    match Eval(p, exec, rank, port.node)
    case Skipped => None
    case Ran(_, outcome) => if port.slot in outcome.Outputs() then Some(outcome.Outputs()[port.slot]) else None
  }

  // ----- The scan of the slots against the recursive evaluator -----

  /** The two lookup tables of the scheduler hold exactly what the finished nodes carry. */
  ghost predicate Faithful(p: Plan, exec: Exec, rank: Rank, finished: set<Id>, available: map<Port, Value>)
    requires Ranks(p, rank)
  {
    && (forall port: Port {:trigger available[port]} {:trigger port in available} | port in available ::
          port.node in finished && Carried(p, exec, rank, port) == Some(available[port]))
    && (forall port: Port {:trigger Carried(p, exec, rank, port)} |
          port.node in finished && Carried(p, exec, rank, port).Some? :: port in available)
    && (forall n | n in finished :: n in p.queue)
  }

  /** A slot that makes its node wait: its edge comes from a node not known to be settled. */
  ghost predicate Awaits(p: Plan, n: Id, s: InputSlot, finished: set<Id>, available: map<Port, Value>) {
    && s in p.Slots(n) && (n, s.name) in p.incoming
    && p.incoming[(n, s.name)] !in available && p.incoming[(n, s.name)].node !in finished
  }

  lemma SupplyIsArrival(p: Plan, exec: Exec, rank: Rank, n: Id, finished: set<Id>, available: map<Port, Value>,
                        name: Slot)
    requires Ranks(p, rank) && Faithful(p, exec, rank, finished, available)
    ensures match SupplyOf(p, n, finished, available, name)
            case Given(v) => Arrival(p, exec, rank, n, name) == Some(v)
            case Never => Arrival(p, exec, rank, n, name) == None
            case NotYet => (n, name) in p.incoming
  {
    if (n, name) in p.incoming {
      var port := p.incoming[(n, name)];
      assert Carried(p, exec, rank, port).Some? || Carried(p, exec, rank, port).None?;
    }
  }

  /** Scanning a list of slots agrees with what arrives at each of them. */
  lemma {:induction false} ScanMeaning(p: Plan, exec: Exec, rank: Rank, n: Id, finished: set<Id>,
                                       available: map<Port, Value>, slots: seq<InputSlot>, got: Inputs)
    requires Ranks(p, rank) && Faithful(p, exec, rank, finished, available)
    requires forall s | s in slots :: s in p.Slots(n)
    requires forall name | name in got :: Arrival(p, exec, rank, n, name) == Some(got[name])
    ensures match Scan(p, n, finished, available, slots, got)
            case Blocked => exists s :: s in slots && s.required && Arrival(p, exec, rank, n, s.name).None?
            case Waiting => exists s :: Awaits(p, n, s, finished, available)
            case Ready(inputs) =>
              && (forall s | s in slots && s.required :: Arrival(p, exec, rank, n, s.name).Some?)
              && (forall name :: name in inputs <==>
                    name in got || (name in Names(slots) && Arrival(p, exec, rank, n, name).Some?))
              && (forall name | name in inputs :: Arrival(p, exec, rank, n, name) == Some(inputs[name]))
    decreases |slots|
  {
    if slots != [] {
      var s, rest := slots[0], slots[1..];
      SupplyIsArrival(p, exec, rank, n, finished, available, s.name);
      assert s in slots && forall t :: t in slots <==> t == s || t in rest;
      assert Names(slots) == Names(rest) + {s.name};
      match SupplyOf(p, n, finished, available, s.name)
      case Given(v) => ScanMeaning(p, exec, rank, n, finished, available, rest, got[s.name := v]);
      case Never =>
        if !s.required {
          ScanMeaning(p, exec, rank, n, finished, available, rest, got);
        }
      case NotYet => assert Awaits(p, n, s, finished, available);
    }
  }

  /** `gather_inputs` is right about every node it settles. */
  lemma GatherMeaning(p: Plan, exec: Exec, rank: Rank, n: Id, finished: set<Id>, available: map<Port, Value>)
    requires Ranks(p, rank) && Faithful(p, exec, rank, finished, available)
    ensures match Gather(p, n, finished, available)
            case Blocked => Eval(p, exec, rank, n) == Skipped
            case Waiting => exists s :: Awaits(p, n, s, finished, available)
            case Ready(inputs) => Eval(p, exec, rank, n) == Ran(inputs, exec(n, inputs))
  {
    ScanMeaning(p, exec, rank, n, finished, available, p.Slots(n), map[]);
    match Gather(p, n, finished, available)
    case Ready(inputs) =>
      var seen := map name | name in Names(p.Slots(n)) && Arrival(p, exec, rank, n, name).Some?
                    :: Arrival(p, exec, rank, n, name).value;
      assert seen == inputs;
    case _ =>
  }
}
