/** Why a node did not run, and where every input came from. */
module Causes {
  import opened Digraph
  import opened Wrappers
  import opened Graph
  import opened Schedule
  import opened Denotation
  import opened Soundness
  import opened Refinement

  ghost predicate Feeds(p: Plan, port: Port, n: Id) {
    exists s :: s in p.Slots(n) && (n, s.name) in p.incoming && p.incoming[(n, s.name)] == port
  }

  /** The port of a node that ran without producing it, or of a node that is never scheduled. */
  ghost predicate DryPort(p: Plan, trace: seq<TraceRecord>, port: Port) {
    port.node !in p.queue
    || exists i :: 0 <= i < |trace| && trace[i].node == port.node && port.slot !in trace[i].outcome.Outputs()
  }

  /** A path of winning edges from n back to a dry port, through nodes that did not run either. */
  ghost predicate CausedBy(p: Plan, trace: seq<TraceRecord>, n: Id, path: seq<Port>)
    decreases |path|
  {
    && path != [] && !Traced(trace, n) && Feeds(p, path[0], n)
    && if |path| == 1 then DryPort(p, trace, path[0]) else CausedBy(p, trace, path[0].node, path[1..])
  }

  /** Every scheduled node without a record was starved along winning edges; a missing edge is
      never the cause. */
  lemma {:induction false} SkipHasCause(p: Plan, exec: Exec, rank: Rank, st: State, n: Id) returns (path: seq<Port>)
    requires Final(p, exec, rank, st) && Covered(p) && n in p.queue && !Traced(st.trace, n)
    ensures CausedBy(p, st.trace, n, path)
    decreases rank(n)
  {
    hide Eval;
    var port := StarvedPort(p, exec, rank, st, n);
    if port.node !in p.queue {
      path := [port];
    } else if Traced(st.trace, port.node) {
      var i :| 0 <= i < |st.trace| && st.trace[i].node == port.node;
      assert Eval(p, exec, rank, st.trace[i].node) == Ran(st.trace[i].inputs, st.trace[i].outcome);
      path := [port];
    } else {
      var rest := SkipHasCause(p, exec, rank, st, port.node);
      path := [port] + rest;
      assert path[1..] == rest;
    }
  }

  /** The edge on which a node without a record received nothing. */
  lemma StarvedPort(p: Plan, exec: Exec, rank: Rank, st: State, n: Id) returns (port: Port)
    requires Final(p, exec, rank, st) && Covered(p) && n in p.queue && !Traced(st.trace, n)
    ensures Feeds(p, port, n) && rank(port.node) < rank(n)
    ensures port.node in p.queue && Traced(st.trace, port.node) ==> Carried(p, exec, rank, port) == None
  {
    if n in st.finished {
      var s :| s in p.Slots(n) && s.required && Arrival(p, exec, rank, n, s.name).None?;
      port := p.incoming[(n, s.name)];
    } else {
      assert Stranded(p, exec, rank, st, n);
      var s :| StrandedAt(p, exec, rank, st, n, s);
      port := p.incoming[(n, s.name)];
      if Traced(st.trace, port.node) {
        TracedIsSettled(p, exec, rank, st, port.node);
      }
    }
    assert Feeds(p, port, n);
  }

  /** For every run: at most one record per node, none for sub-nodes, and every edge-fed input is
      the output slot of a strictly earlier record. */
  lemma TraceProvenance(p: Plan, exec: Exec, rank: Rank)
    requires Ranks(p, rank) && Distinct(p.queue)
    ensures var trace := Run(p, exec).trace;
            && Provenance(p, trace)
            && (forall i | 0 <= i < |trace| :: trace[i].node in p.queue)
            && (forall i, j | 0 <= i < j < |trace| :: trace[i].node != trace[j].node)
  {
    RunIsFinal(p, exec, rank);
  }

  // ----- Branches exclude each other -----

  /** n depends on a port through required slots only. */
  ghost predicate Needs(p: Plan, rank: Rank, n: Id, port: Port)
    requires Ranks(p, rank)
    decreases rank(n)
  {
    exists s :: s in p.Slots(n) && s.required && (n, s.name) in p.incoming
             && (p.incoming[(n, s.name)] == port || Needs(p, rank, p.incoming[(n, s.name)].node, port))
  }

  lemma {:induction false} NeededIsCarried(p: Plan, exec: Exec, rank: Rank, n: Id, port: Port)
    requires Ranks(p, rank) && Eval(p, exec, rank, n).Ran? && Needs(p, rank, n, port)
    ensures Carried(p, exec, rank, port).Some?
    decreases rank(n)
  {
    var s :| s in p.Slots(n) && s.required && (n, s.name) in p.incoming
          && (p.incoming[(n, s.name)] == port || Needs(p, rank, p.incoming[(n, s.name)].node, port));
    assert Arrival(p, exec, rank, n, s.name).Some?;
    if p.incoming[(n, s.name)] != port {
      NeededIsCarried(p, exec, rank, p.incoming[(n, s.name)].node, port);
    }
  }

  /** A node body that fires at most one of two slots, as `conditional_branch` does. */
  ghost predicate Exclusive(exec: Exec, b: Id, x: Slot, y: Slot) {
    forall inputs :: !(x in exec(b, inputs).Outputs() && y in exec(b, inputs).Outputs())
  }

  lemma CarriesOneBranch(p: Plan, exec: Exec, rank: Rank, b: Id, x: Slot, y: Slot)
    requires Ranks(p, rank) && Exclusive(exec, b, x, y)
    ensures Carried(p, exec, rank, Port(b, x)).None? || Carried(p, exec, rank, Port(b, y)).None?
  {
  }

  /** No executed node depends through required slots on both branches of one conditional. */
  lemma BranchesExclude(p: Plan, exec: Exec, rank: Rank, b: Id, x: Slot, y: Slot, n: Id)
    requires Ranks(p, rank) && Distinct(p.queue) && Exclusive(exec, b, x, y)
    requires Traced(Run(p, exec).trace, n)
    ensures !(Needs(p, rank, n, Port(b, x)) && Needs(p, rank, n, Port(b, y)))
  {
    hide Eval, Needs, Run, Inv, Exclusive, Carried;
    RunIsFinal(p, exec, rank);
    TracedRan(p, exec, rank, Run(p, exec), n);
    CarriesOneBranch(p, exec, rank, b, x, y);
    if Needs(p, rank, n, Port(b, x)) {
      NeededIsCarried(p, exec, rank, n, Port(b, x));
    }
    if Needs(p, rank, n, Port(b, y)) {
      NeededIsCarried(p, exec, rank, n, Port(b, y));
    }
  }

  lemma TracedRan(p: Plan, exec: Exec, rank: Rank, st: State, n: Id)
    requires Ranks(p, rank) && Final(p, exec, rank, st) && Traced(st.trace, n)
    ensures Eval(p, exec, rank, n).Ran?
  {
    var i :| 0 <= i < |st.trace| && st.trace[i].node == n;
    assert Eval(p, exec, rank, st.trace[i].node) == Ran(st.trace[i].inputs, st.trace[i].outcome);
  }
}
