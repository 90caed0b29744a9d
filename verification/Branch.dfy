/** The `conditional_branch` node (backend/nodes/conditional_branch.py): exactly one of its two
outputs fires, so nothing downstream can require both. */
module Branch {
  import opened Wrappers
  import opened Digraph
  import opened Graph
  import opened Schedule
  import opened Denotation
  import opened Soundness
  import opened Causes
  import opened Rules
  import opened Validator
  import opened Interpreter
  import opened Validated
  import Typing

  const TRUE_BRANCH: Slot := "true_branch"
  const FALSE_BRANCH: Slot := "false_branch"

  /** The pattern `name('argument')`, matched against a stripped condition. */
  type Pattern = string -> Option<(string, string)>

  predicate Within(arg: string, s: string) {
    arg <= s || (s != "" && Within(arg, s[1..]))
  }

  predicate OccursAt(arg: string, s: string, i: nat) {
    i + |arg| <= |s| && s[i..i + |arg|] == arg
  }

  lemma {:induction false} WithinOccurs(arg: string, s: string) returns (i: nat)
    requires Within(arg, s)
    ensures OccursAt(arg, s, i)
  {
    if arg <= s {
      i := 0;
    } else {
      var k := WithinOccurs(arg, s[1..]);
      i := k + 1;
      assert s[i..i + |arg|] == s[1..][k..k + |arg|];
    }
  }

  lemma {:induction false} OccursWithin(arg: string, s: string, i: nat)
    requires OccursAt(arg, s, i)
    ensures Within(arg, s)
    decreases i
  {
    if i == 0 {
      assert s[..|arg|] == arg;
    } else {
      assert s[1..][i - 1..i - 1 + |arg|] == s[i..i + |arg|];
      OccursWithin(arg, s[1..], i - 1);
    }
  }

  lemma WithinIsOccurrence(arg: string, s: string)
    ensures Within(arg, s) <==> exists i: nat :: OccursAt(arg, s, i)
  {
    hide Within, OccursAt;
    if Within(arg, s) {
      var i := WithinOccurs(arg, s);
    }
    if i: nat :| OccursAt(arg, s, i) {
      OccursWithin(arg, s, i);
    }
  }

  /** Python's `arg in value`; None where it raises. */
  function Contains(value: Value, arg: string): Option<bool> {
    match value
    case Text(s) => Some(Within(arg, s))
    case List(items) => Some(Text(arg) in items)
    case Object(fields) => Some(arg in fields)
    case _ => None
  }

  function Evaluate(pattern: Pattern, condition: string, value: Value): Option<bool> {
    match pattern(condition)
    case None => None
    case Some((name, arg)) =>
      if name == "contains" then Contains(value, arg)
      else if name == "equals" then Some(value == Text(arg))
      else None
  }

  function ExecuteBranch(pattern: Pattern, n: NodeSpec, inputs: Inputs): (o: Outcome)
    ensures o.Done? ==> "value" in inputs
                        && (o.outputs == map[TRUE_BRANCH := inputs["value"]]
                            || o.outputs == map[FALSE_BRANCH := inputs["value"]])
  {
    if "condition" !in n.config || !n.config["condition"].Plain? || !n.config["condition"].value.Text? then
      Failed("invalid config")
    else if "value" !in inputs then Failed("missing input")
    else
      match Evaluate(pattern, n.config["condition"].value.s, inputs["value"])
      case None => Failed("bad condition")
      case Some(holds) => Done(map[(if holds then TRUE_BRANCH else FALSE_BRANCH) := inputs["value"]], None)
  }

  /** The condition as a reader of the graph means it: `contains` on text asks for an occurrence, on
      a list for an item, on an object for a key; `equals` for this very text. None if it has no
      answer. */
  ghost function Holds(name: string, arg: string, value: Value): Option<bool> {
    if name == "equals" then Some(value == Text(arg))
    else if name != "contains" then None
    else
      match value
      case Text(s) => Some(exists i: nat :: OccursAt(arg, s, i))
      case List(items) => Some(exists k :: 0 <= k < |items| && items[k] == Text(arg))
      case Object(fields) => Some(arg in fields)
      case _ => None
  }

  lemma EvaluateMeans(pattern: Pattern, condition: string, name: string, arg: string, value: Value)
    requires pattern(condition) == Some((name, arg))
    ensures Evaluate(pattern, condition, value) == Holds(name, arg, value)
  {
    hide Within, OccursAt;
    assert "contains"[0] != "equals"[0];
    if value.Text? {
      WithinIsOccurrence(arg, value.s);
    }
  }

  /** A branch whose condition parses passes its input on: to the true slot if and only if the
      condition holds of it, to the false slot if and only if it does not, and to neither if and only
      if the condition has no answer. */
  lemma FiresByCondition(pattern: Pattern, n: NodeSpec, condition: string, name: string, arg: string, inputs: Inputs)
    requires "condition" in n.config && n.config["condition"] == Plain(Text(condition)) && "value" in inputs
    requires pattern(condition) == Some((name, arg))
    ensures var outputs, v := ExecuteBranch(pattern, n, inputs).Outputs(), inputs["value"];
            && (Holds(name, arg, v) == Some(true) <==> outputs == map[TRUE_BRANCH := v])
            && (Holds(name, arg, v) == Some(false) <==> outputs == map[FALSE_BRANCH := v])
            && (Holds(name, arg, v) == None <==> outputs == map[])
  {
    hide Holds, Evaluate;
    EvaluateMeans(pattern, condition, name, arg, inputs["value"]);
    BranchesDiffer(inputs["value"]);
  }

  /** A branch fails exactly if it has no condition, no input, a condition that does not parse, or one
      that has no answer for this input. */
  lemma BranchFails(pattern: Pattern, n: NodeSpec, inputs: Inputs)
    ensures ExecuteBranch(pattern, n, inputs).Failed? <==>
              forall condition, name, arg ::
                !("condition" in n.config && n.config["condition"] == Plain(Text(condition)) && "value" in inputs
                  && pattern(condition) == Some((name, arg)) && Holds(name, arg, inputs["value"]).Some?)
  {
    hide Holds, Evaluate;
    if "condition" in n.config && n.config["condition"].Plain? && n.config["condition"].value.Text?
       && "value" in inputs {
      var condition := n.config["condition"].value.s;
      assert n.config["condition"] == Plain(Text(condition));
      if pattern(condition).Some? {
        var (name, arg) := pattern(condition).value;
        EvaluateMeans(pattern, condition, name, arg, inputs["value"]);
      } else {
        UnparsedHasNoAnswer(pattern, condition, inputs["value"]);
      }
    }
  }

  lemma UnparsedHasNoAnswer(pattern: Pattern, condition: string, v: Value)
    requires pattern(condition) == None
    ensures Evaluate(pattern, condition, v) == None
  {
  }

  lemma BranchesDiffer(v: Value)
    ensures map[TRUE_BRANCH := v] != map[FALSE_BRANCH := v] && map[TRUE_BRANCH := v] != map[]
            && map[FALSE_BRANCH := v] != map[]
  {
    assert TRUE_BRANCH[0] != FALSE_BRANCH[0];
    assert TRUE_BRANCH in map[TRUE_BRANCH := v] && TRUE_BRANCH !in map[FALSE_BRANCH := v]
           && FALSE_BRANCH in map[FALSE_BRANCH := v];
  }

  /** n is a node whose type's body is a conditional branch. */
  ghost predicate IsBranch(w: World, g: GraphSpec, pattern: Pattern, n: NodeSpec) {
    && n in g.nodes && n.typ in w.reg && w.reg[n.typ].body.Primitive?
    && forall m, inputs, resources :: w.reg[n.typ].body.run(m, inputs, resources) == ExecuteBranch(pattern, m, inputs)
  }

  lemma BranchIsExclusive(w: World, g: GraphSpec, pattern: Pattern, n: NodeSpec)
    requires UniqueIds(g) && IsBranch(w, g, pattern, n)
    ensures Exclusive(NodeExec(w, g), n.id, TRUE_BRANCH, FALSE_BRANCH)
  {
    hide ExecuteBranch, UniqueIds;
    NodesByIdUnique(g, n);
    forall inputs
      ensures !(TRUE_BRANCH in NodeExec(w, g)(n.id, inputs).Outputs()
                && FALSE_BRANCH in NodeExec(w, g)(n.id, inputs).Outputs())
    {
      FiresOne(ExecuteBranch(pattern, n, inputs), inputs);
    }
  }

  lemma FiresOne(o: Outcome, inputs: Inputs)
    requires o.Done? ==> "value" in inputs
                         && (o.outputs == map[TRUE_BRANCH := inputs["value"]]
                             || o.outputs == map[FALSE_BRANCH := inputs["value"]])
    ensures !(TRUE_BRANCH in o.Outputs() && FALSE_BRANCH in o.Outputs())
  {
    assert TRUE_BRANCH[0] != FALSE_BRANCH[0];
  }

  /** In every run of a validated graph, no executed node depends through required slots on both
      outputs of a conditional branch. */
  lemma ValidatedBranchesExclude(w: World, g: GraphSpec, pattern: Pattern, branch: NodeSpec, rank: Rank, n: Id)
    requires Accepts(w, g) && IsBranch(w, g, pattern, branch)
    requires Ranks(PlanOf(g, w.reg), rank) && Traced(Trace(w, g, NodeExec(w, g)), n)
    ensures !(Needs(PlanOf(g, w.reg), rank, n, Port(branch.id, TRUE_BRANCH))
              && Needs(PlanOf(g, w.reg), rank, n, Port(branch.id, FALSE_BRANCH)))
  {
    hide Needs, Exclusive, IsBranch, Run, Valid, UniqueIds, Distinct, PlanOf;
    BranchIsExclusive(w, g, pattern, branch);
    QueueDistinct(g, w.reg);
    BranchesExclude(PlanOf(g, w.reg), NodeExec(w, g), rank, branch.id, TRUE_BRANCH, FALSE_BRANCH, n);
  }

  /** A branch whose input and outputs have one type keeps types, for every typing of values: it asks
      for a typed input, since it passes whatever it gets on. */
  lemma BranchKeepsTypes(hasType: Typing.Typing, w: World, g: GraphSpec, pattern: Pattern, n: NodeSpec,
                         input: InputSlot, yes: OutputSlot, no: OutputSlot)
    requires IsBranch(w, g, pattern, n) && EffectiveOutputs(w.reg[n.typ], n).Some?
    requires FindInput(InputsOrNone(w.reg, n), "value") == Some(input) && yes.typ == input.typ == no.typ
    requires FindOutput(EffectiveOutputs(w.reg[n.typ], n).value, TRUE_BRANCH) == Some(yes)
    requires FindOutput(EffectiveOutputs(w.reg[n.typ], n).value, FALSE_BRANCH) == Some(no)
    ensures Typing.PrimitiveTyped(hasType, w, g, n)
  {
    hide ExecuteBranch, FindInput, FindOutput, EffectiveOutputs, InputsOrNone, Typing.InputsTyped, Typing.OutputsTyped;
    forall inputs | Typing.InputsTyped(hasType, InputsOrNone(w.reg, n), inputs)
      ensures Typing.OutputsTyped(hasType, EffectiveOutputs(w.reg[n.typ], n).value,
                                  w.reg[n.typ].body.run(n, inputs, ResourcesOf(w, g)).Outputs())
    {
      PassesTyped(hasType, InputsOrNone(w.reg, n), EffectiveOutputs(w.reg[n.typ], n).value, inputs,
                  ExecuteBranch(pattern, n, inputs), input, yes, no);
    }
  }

  lemma PassesTyped(hasType: Typing.Typing, slots: seq<InputSlot>, ports: seq<OutputSlot>, inputs: Inputs, o: Outcome,
                    input: InputSlot, yes: OutputSlot, no: OutputSlot)
    requires Typing.InputsTyped(hasType, slots, inputs) && FindInput(slots, "value") == Some(input)
    requires FindOutput(ports, TRUE_BRANCH) == Some(yes) && FindOutput(ports, FALSE_BRANCH) == Some(no)
    requires yes.typ == input.typ == no.typ
    requires o.Done? ==> "value" in inputs
                         && (o.outputs == map[TRUE_BRANCH := inputs["value"]]
                             || o.outputs == map[FALSE_BRANCH := inputs["value"]])
    ensures Typing.OutputsTyped(hasType, ports, o.Outputs())
  {
    hide FindInput, FindOutput;
  }
}
