/** When the round loop computes the whole meaning of a graph, and exactly when it can fall short. */
module Refinement {
  import opened Digraph
  import opened Wrappers
  import opened Graph
  import opened Schedule
  import opened Denotation
  import opened Soundness

  /** What the required-input check guarantees: a required slot has an edge or a literal. */
  ghost predicate Covered(p: Plan) {
    forall n, s | n in p.queue && s in p.Slots(n) && s.required ::
      (n, s.name) in p.incoming || s.name in p.Literals(n)
  }

  /** The run executed exactly the nodes that the evaluator fires, each with exactly its inputs and outcome. */
  ghost predicate ComputesMeaning(p: Plan, exec: Exec, rank: Rank, trace: seq<TraceRecord>)
    requires Ranks(p, rank)
  {
    && (forall i | 0 <= i < |trace| ::
          trace[i].node in p.queue && Eval(p, exec, rank, trace[i].node) == Ran(trace[i].inputs, trace[i].outcome))
    && (forall i, j | 0 <= i < j < |trace| :: trace[i].node != trace[j].node)
    && (forall n {:trigger Traced(trace, n)} | n in p.queue && Eval(p, exec, rank, n).Ran? :: Traced(trace, n))
  }

  /** With what it left pending skipped by the evaluator, a run has computed the whole meaning. */
  lemma LeftoversSkipped(p: Plan, exec: Exec, rank: Rank, st: State)
    requires Final(p, exec, rank, st)
    requires forall n | n in st.pending :: Eval(p, exec, rank, n) == Skipped
    ensures ComputesMeaning(p, exec, rank, st.trace)
  {
    hide Eval;
    forall n | n in p.queue && Eval(p, exec, rank, n).Ran? ensures Traced(st.trace, n) {
      assert n in st.pending || n in st.finished;
    }
  }

  // ----- When leaving the loop early loses nothing -----

  ghost predicate EdgesRequired(p: Plan) {
    forall n, s | n in p.queue && s in p.Slots(n) && (n, s.name) in p.incoming :: s.required
  }

  ghost predicate Fed(p: Plan, n: Id) {
    exists s :: s in p.Slots(n) && (n, s.name) in p.incoming
  }

  lemma IsFed(p: Plan, n: Id, s: InputSlot)
    requires s in p.Slots(n) && (n, s.name) in p.incoming
    ensures Fed(p, n)
  {
  }

  /** The edge starts at a scheduled node, and if it points backwards in the node list, at a node
      that no winning edge feeds. */
  ghost predicate EdgeSafe(p: Plan, n: Id, s: InputSlot)
    requires (n, s.name) in p.incoming
  {
    var m := p.incoming[(n, s.name)].node;
    m in p.queue && (After(p.queue, n, m) ==> !Fed(p, m))
  }

  /** Every winning edge is safe. */
  ghost predicate OrderSafe(p: Plan) {
    forall n, s | n in p.queue && s in p.Slots(n) && (n, s.name) in p.incoming :: EdgeSafe(p, n, s)
  }

  /** Every winning edge on the way to n is safe. */
  ghost predicate SafeAbove(p: Plan, rank: Rank, n: Id)
    requires Ranks(p, rank)
    decreases rank(n)
  {
    forall s | s in p.Slots(n) && (n, s.name) in p.incoming ::
      EdgeSafe(p, n, s) && SafeAbove(p, rank, p.incoming[(n, s.name)].node)
  }

  /** Every winning edge into an optional slot is safe, and so are all on the way to its source.
      Required slots may be fed in any order. */
  ghost predicate Shielded(p: Plan, rank: Rank)
    requires Ranks(p, rank)
  {
    forall n, s | n in p.queue && s in p.Slots(n) && (n, s.name) in p.incoming && !s.required ::
      EdgeSafe(p, n, s) && SafeAbove(p, rank, p.incoming[(n, s.name)].node)
  }

  lemma {:induction false} OrderSafeAbove(p: Plan, rank: Rank, n: Id)
    requires Ranks(p, rank) && OrderSafe(p) && n in p.queue
    ensures SafeAbove(p, rank, n)
    decreases rank(n)
  {
    forall s | s in p.Slots(n) && (n, s.name) in p.incoming
      ensures EdgeSafe(p, n, s) && SafeAbove(p, rank, p.incoming[(n, s.name)].node)
    {
      assert EdgeSafe(p, n, s);
      OrderSafeAbove(p, rank, p.incoming[(n, s.name)].node);
    }
  }

  /** A safe order shields every slot. */
  lemma OrderSafeIsShielded(p: Plan, rank: Rank)
    requires Ranks(p, rank) && OrderSafe(p)
    ensures Shielded(p, rank)
  {
    forall n, s | n in p.queue && s in p.Slots(n) && (n, s.name) in p.incoming && !s.required
      ensures EdgeSafe(p, n, s) && SafeAbove(p, rank, p.incoming[(n, s.name)].node)
    {
      assert EdgeSafe(p, n, s);
      OrderSafeAbove(p, rank, p.incoming[(n, s.name)].node);
    }
  }

  lemma {:induction false} NobodyStranded(p: Plan, exec: Exec, rank: Rank, st: State, n: Id)
    requires Final(p, exec, rank, st) && Covered(p) && SafeAbove(p, rank, n)
    ensures n !in st.pending
    decreases rank(n)
  {
    if n in st.pending {
      assert Stranded(p, exec, rank, st, n);
      var s :| StrandedAt(p, exec, rank, st, n, s);
      assert EdgeSafe(p, n, s);
      var m := p.incoming[(n, s.name)].node;
      if m in st.finished {
        SkippedIsFed(p, exec, rank, m);
      } else {
        NobodyStranded(p, exec, rank, st, m);
      }
    }
  }

  /** A covered node is skipped only for want of a value on some edge. */
  lemma SkippedIsFed(p: Plan, exec: Exec, rank: Rank, m: Id)
    requires Ranks(p, rank) && Covered(p) && m in p.queue && Eval(p, exec, rank, m) == Skipped
    ensures Fed(p, m)
  {
    var s :| s in p.Slots(m) && s.required && Arrival(p, exec, rank, m, s.name).None?;
    assert (m, s.name) in p.incoming;
  }

  /** What a run leaves pending, the evaluator skips. */
  lemma {:induction false} PendingIsSkipped(p: Plan, exec: Exec, rank: Rank, st: State, n: Id)
    requires Ranks(p, rank) && Final(p, exec, rank, st) && n in st.pending
    requires EdgesRequired(p) || (Covered(p) && Shielded(p, rank))
    ensures Eval(p, exec, rank, n) == Skipped
    decreases rank(n)
  {
    hide Eval, Covered, SafeAbove, Inv;
    PendingIs(p, exec, rank, st);
    assert Stranded(p, exec, rank, st, n);
    var s :| StrandedAt(p, exec, rank, st, n, s);
    var m := p.incoming[(n, s.name)].node;
    if !s.required && !EdgesRequired(p) {
      OptionalNeverStrands(p, exec, rank, st, n, s);
    } else {
      if m !in st.finished && m in p.queue {
        PendingIsSkipped(p, exec, rank, st, m);
      }
      RequiredSkips(p, exec, rank, n, s);
    }
  }

  lemma OptionalNeverStrands(p: Plan, exec: Exec, rank: Rank, st: State, n: Id, s: InputSlot)
    requires Final(p, exec, rank, st) && n in st.pending && Covered(p)
    requires s in p.Slots(n) && (n, s.name) in p.incoming
    requires EdgeSafe(p, n, s) && SafeAbove(p, rank, p.incoming[(n, s.name)].node)
    ensures !StrandedAt(p, exec, rank, st, n, s)
  {
    hide Eval, Covered, SafeAbove;
    var m := p.incoming[(n, s.name)].node;
    if StrandedAt(p, exec, rank, st, n, s) {
      if m in st.finished {
        SkippedIsFed(p, exec, rank, m);
      } else {
        NobodyStranded(p, exec, rank, st, m);
      }
    }
  }

  lemma RequiredSkips(p: Plan, exec: Exec, rank: Rank, n: Id, s: InputSlot)
    requires Ranks(p, rank) && s in p.Slots(n) && s.required && (n, s.name) in p.incoming
    requires var m := p.incoming[(n, s.name)].node; m !in p.queue || Eval(p, exec, rank, m) == Skipped
    ensures Eval(p, exec, rank, n) == Skipped
  {
    assert Arrival(p, exec, rank, n, s.name) == None;
  }

  /** If the optional slots are shielded, then wherever the node list puts the sources of required
      slots and whatever the node bodies are, the run computes the meaning of the graph: leaving the
      loop early loses nothing. */
  lemma ShieldedComputesMeaning(p: Plan, exec: Exec, rank: Rank)
    requires Ranks(p, rank) && Distinct(p.queue)
    requires EdgesRequired(p) || (Covered(p) && Shielded(p, rank))
    ensures ComputesMeaning(p, exec, rank, Run(p, exec).trace)
  {
    hide Eval, Shielded, EdgesRequired, Covered, ComputesMeaning;
    RunIsFinal(p, exec, rank);
    forall n | n in Run(p, exec).pending ensures Eval(p, exec, rank, n) == Skipped {
      PendingIsSkipped(p, exec, rank, Run(p, exec), n);
    }
    LeftoversSkipped(p, exec, rank, Run(p, exec));
  }

  /** If every edge-fed slot is required, the run computes the meaning of the graph for every order
      of the node list and all node bodies. */
  lemma RunComputesMeaning(p: Plan, exec: Exec, rank: Rank)
    requires Ranks(p, rank) && Distinct(p.queue) && EdgesRequired(p)
    ensures ComputesMeaning(p, exec, rank, Run(p, exec).trace)
  {
    ShieldedComputesMeaning(p, exec, rank);
  }

  /** In a safe order nothing is left pending and the run computes the meaning of the graph. */
  lemma SafeOrderComputesMeaning(p: Plan, exec: Exec, rank: Rank)
    requires Ranks(p, rank) && Distinct(p.queue) && Covered(p) && OrderSafe(p)
    ensures Run(p, exec).pending == [] && ComputesMeaning(p, exec, rank, Run(p, exec).trace)
  {
    hide Eval, Covered, OrderSafe, ComputesMeaning, Inv, SafeAbove;
    OrderSafeIsShielded(p, rank);
    ShieldedComputesMeaning(p, exec, rank);
    RunIsFinal(p, exec, rank);
    var st := Run(p, exec);
    if st.pending != [] {
      PendingIs(p, exec, rank, st);
      assert st.pending[0] in st.pending;
      OrderSafeAbove(p, rank, st.pending[0]);
      NobodyStranded(p, exec, rank, st, st.pending[0]);
    }
  }

  // ----- An unsafe order always loses something -----

  /** The same graph up to which slots are required. */
  ghost predicate SameShape(p: Plan, q: Plan) {
    && q.queue == p.queue && q.incoming == p.incoming && q.literals == p.literals
    && forall n :: |q.Slots(n)| == |p.Slots(n)| && forall i | 0 <= i < |p.Slots(n)| ::
         q.Slots(n)[i] == p.Slots(n)[i].(required := q.Slots(n)[i].required)
  }

  /** Whatever the required flags and the node bodies are, the run computes the meaning. */
  ghost predicate AlwaysComputesMeaning(p: Plan, rank: Rank)
    requires Ranks(p, rank)
  {
    forall q, exec {:trigger ComputesMeaning(q, exec, rank, Run(q, exec).trace)} | SameShape(p, q) && Covered(q) ::
      ComputesMeaning(q, exec, rank, Run(q, exec).trace)
  }

  /** Every edge-fed slot required, except on n where nothing is. */
  function Reflag(p: Plan, n: Id): Plan {
    p.(slots := map k | k in p.slots :: ReflagSlots(p, n, k, p.slots[k]))
  }

  function ReflagSlots(p: Plan, n: Id, k: Id, slots: seq<InputSlot>): (r: seq<InputSlot>)
    ensures |r| == |slots|
    ensures forall i | 0 <= i < |r| :: r[i] == slots[i].(required := k != n && (k, slots[i].name) in p.incoming)
  {
    seq(|slots|, i requires 0 <= i < |slots| => slots[i].(required := k != n && (k, slots[i].name) in p.incoming))
  }

  /** No node ever produces anything. */
  ghost predicate Barren(exec: Exec) {
    forall n, inputs :: exec(n, inputs).Outputs() == map[]
  }

  lemma ReflagFacts(p: Plan, n: Id)
    ensures SameShape(p, Reflag(p, n)) && Covered(Reflag(p, n))
    ensures Reflag(p, n).queue == p.queue && Reflag(p, n).incoming == p.incoming
    ensures forall k, s | s in Reflag(p, n).Slots(k) :: s.required <==> k != n && (k, s.name) in p.incoming
    ensures forall k, s | s in p.Slots(k) :: exists t :: t in Reflag(p, n).Slots(k) && t.name == s.name
  {
    var q := Reflag(p, n);
    forall k, s | s in p.Slots(k) ensures exists t :: t in q.Slots(k) && t.name == s.name {
      var i :| 0 <= i < |p.Slots(k)| && p.Slots(k)[i] == s;
      assert q.Slots(k)[i].name == s.name;
    }
  }

  lemma ReflagFed(p: Plan, n: Id, k: Id)
    ensures Fed(Reflag(p, n), k) <==> Fed(p, k)
  {
    var q := Reflag(p, n);
    if s :| s in p.Slots(k) && (k, s.name) in p.incoming {
      var i :| 0 <= i < |p.Slots(k)| && p.Slots(k)[i] == s;
      assert q.Slots(k)[i].name == s.name && q.Slots(k)[i] in q.Slots(k);
    }
    if s :| s in q.Slots(k) && (k, s.name) in q.incoming {
      var i :| 0 <= i < |q.Slots(k)| && q.Slots(k)[i] == s;
      assert p.Slots(k)[i].name == s.name && p.Slots(k)[i] in p.Slots(k);
    }
  }

  lemma FailingArrival(q: Plan, exec: Exec, rank: Rank, k: Id, name: Slot)
    requires Ranks(q, rank) && Barren(exec) && (k, name) in q.incoming
    ensures Arrival(q, exec, rank, k, name) == None
  {
  }

  /** When every body fails, a reflagged node fires iff it is n or nothing feeds it. */
  lemma FailingVerdict(p: Plan, n: Id, exec: Exec, rank: Rank, k: Id)
    requires Ranks(p, rank) && Barren(exec)
    ensures Eval(Reflag(p, n), exec, rank, k).Ran? <==> k == n || !Fed(Reflag(p, n), k)
  {
    hide Eval, Reflag, SameShape, Covered;
    var q := Reflag(p, n);
    ReflagFacts(p, n);
    if k != n && Fed(q, k) {
      var t :| t in q.Slots(k) && (k, t.name) in q.incoming;
      FailingArrival(q, exec, rank, k, t.name);
      UnsuppliedIsSkipped(q, exec, rank, k, t);
    } else {
      UndemandingRuns(q, exec, rank, k);
    }
  }

  lemma UnsuppliedIsSkipped(p: Plan, exec: Exec, rank: Rank, n: Id, s: InputSlot)
    requires Ranks(p, rank) && s in p.Slots(n) && s.required && Arrival(p, exec, rank, n, s.name) == None
    ensures Eval(p, exec, rank, n) == Skipped
  {
  }

  lemma UndemandingRuns(p: Plan, exec: Exec, rank: Rank, n: Id)
    requires Ranks(p, rank) && forall s | s in p.Slots(n) :: !s.required
    ensures Eval(p, exec, rank, n).Ran?
  {
  }

  /** A slot fed by a node that is never scheduled makes its node wait for ever. */
  lemma ForeignEdgeLoses(p: Plan, exec: Exec, rank: Rank, n: Id, s: InputSlot)
    requires Ranks(p, rank) && Barren(exec) && Distinct(p.queue) && n in p.queue && s in p.Slots(n)
             && (n, s.name) in p.incoming
    requires p.incoming[(n, s.name)].node !in p.queue
    ensures !ComputesMeaning(Reflag(p, n), exec, rank, Run(Reflag(p, n), exec).trace)
  {
    var q := Reflag(p, n);
    ReflagFacts(p, n);
    FailingVerdict(p, n, exec, rank, n);
    RunIsFinal(q, exec, rank);
    var t :| t in q.Slots(n) && t.name == s.name;
    var st := Run(q, exec);
    if Traced(st.trace, n) {
      TracedIsSettled(q, exec, rank, st, n);
    }
  }

  lemma TracedIsSettled(p: Plan, exec: Exec, rank: Rank, st: State, n: Id)
    requires Inv(p, exec, rank, st) && Traced(st.trace, n)
    ensures Settled(p, st.finished, n) && n in st.finished
  {
    var i :| 0 <= i < |st.trace| && st.trace[i].node == n;
    assert Settled(p, st.finished, st.trace[i].node);
  }

  /** A round in which every pending node waits for, or is refused by, a failed source. */
  ghost predicate Doomed(q: Plan, exec: Exec, rank: Rank, st: State, n: Id, m: Id) {
    && Barren(exec) && Inv(q, exec, rank, st)
    && n in st.pending && m in st.pending && After(q.queue, n, m)
    && (exists t :: t in q.Slots(n) && (n, t.name) in q.incoming && q.incoming[(n, t.name)].node == m)
    && forall k | k in st.pending && k != n :: Eval(q, exec, rank, k) == Skipped
  }

  lemma {:induction false} AfterKept(list: seq<Id>, gone: set<Id>, n: Id, m: Id)
    requires After(list, n, m) && n !in gone && m !in gone
    ensures After(Without(list, gone), n, m)
  {
    if list[0] == n && m in list[1..] {
      assert Without(list, gone)[1..] == Without(list[1..], gone);
    } else {
      AfterKept(list[1..], gone, n, m);
      if list[0] !in gone {
        assert Without(list, gone)[1..] == Without(list[1..], gone);
      }
    }
  }

  lemma DoomedIsNotReady(q: Plan, exec: Exec, rank: Rank, st: State, n: Id, m: Id, r: Pass, e: (Id, Inputs))
    requires Doomed(q, exec, rank, st, n, m) && e.0 in st.pending
    ensures !ReadyOk(q, exec, rank, st.pending, st.finished, r, e)
  {
    hide Eval;
    AfterKept(q.queue, st.finished, n, m);
    var t :| t in q.Slots(n) && (n, t.name) in q.incoming && q.incoming[(n, t.name)].node == m;
  }

  lemma DoomedRound(q: Plan, exec: Exec, rank: Rank, st: State, n: Id, m: Id)
    requires Doomed(q, exec, rank, st, n, m)
    ensures Sorted(q, st).ready == []
    ensures !Traced(Rounds(q, exec, st).trace, n)
  {
    hide Eval;
    PassInv(q, exec, rank, st);
    var r := Sorted(q, st);
    if r.ready != [] {
      DoomedIsNotReady(q, exec, rank, st, n, m, r, r.ready[0]);
    }
    if Traced(st.trace, n) {
      TracedIsSettled(q, exec, rank, st, n);
    }
  }

  lemma FirstPassBlocksNobody(q: Plan, todo: seq<Id>, available: map<Port, Value>)
    requires forall n, s | n in todo && s in q.Slots(n) && s.required ::
               (n, s.name) in q.incoming || s.name in q.Literals(n)
    ensures Classify(q, todo, {}, available).finished == {}
  {
    if todo != [] {
      NotBlocked(q, todo[0], available, q.Slots(todo[0]), map[]);
      FirstPassBlocksNobody(q, todo[1..], available);
    }
  }

  lemma {:induction false} NotBlocked(q: Plan, n: Id, available: map<Port, Value>, slots: seq<InputSlot>, got: Inputs)
    requires forall s | s in slots && s.required :: (n, s.name) in q.incoming || s.name in q.Literals(n)
    ensures !Scan(q, n, {}, available, slots, got).Blocked?
    decreases |slots|
  {
    if slots != [] {
      assert slots[0] in slots;
      match SupplyOf(q, n, {}, available, slots[0].name)
      case Given(v) => NotBlocked(q, n, available, slots[1..], got[slots[0].name := v]);
      case Never => NotBlocked(q, n, available, slots[1..], got);
      case NotYet =>
    }
  }

  /** The first round runs exactly the nodes that nothing feeds. */
  lemma FirstRound(q: Plan, exec: Exec, rank: Rank)
    requires Inv(q, exec, rank, Initial(q)) && Covered(q)
    ensures Inv(q, exec, rank, AfterRound(q, exec, Initial(q)))
    ensures AfterRound(q, exec, Initial(q)).finished == set k | k in q.queue && !Fed(q, k)
    ensures Sorted(q, Initial(q)).ready == [] ==> forall k | k in q.queue :: Fed(q, k)
  {
    hide Eval, Inv, Classify, AfterRound, Covered, Settled, Stays, ReadyOk;
    var st := Initial(q);
    PassInv(q, exec, rank, st);
    RoundInv(q, exec, rank, st);
    CoveredUnfolds(q);
    FirstPassBlocksNobody(q, st.pending, st.available);
    var r := Sorted(q, st);
    WithoutNone(q.queue, {});
    forall k | k in q.queue ensures k in ReadyIds(r.ready) <==> !Fed(q, k) {
      if k in ReadyIds(r.ready) {
        var i :| 0 <= i < |r.ready| && ReadyIds(r.ready)[i] == k;
        ReadyEntry(q, exec, rank, st.pending, {}, r, r.ready[i]);
        SettledByNobody(q, k);
      } else {
        StaysIsFed(q, st.pending, {}, r.finished, st.available, k);
      }
    }
    ReadyAreKept(q, exec, rank, st.pending, {}, r);
  }

  lemma CoveredUnfolds(q: Plan)
    requires Covered(q)
    ensures forall n, s | n in q.queue && s in q.Slots(n) && s.required ::
              (n, s.name) in q.incoming || s.name in q.Literals(n)
  {
  }

  lemma SettledByNobody(p: Plan, n: Id)
    requires Settled(p, {}, n)
    ensures !Fed(p, n)
  {
  }

  lemma StaysIsFed(p: Plan, todo: seq<Id>, before: set<Id>, after: set<Id>, available: map<Port, Value>, n: Id)
    requires Stays(p, todo, before, after, available, n)
    ensures Fed(p, n)
  {
    var s :| LeftBehind(p, todo, before, after, available, n, s);
  }

  /** The first round runs every node that fires without being fed, so the second one is doomed. */
  lemma BackwardEdgeLoses(p: Plan, exec: Exec, rank: Rank, n: Id, s: InputSlot)
    requires Ranks(p, rank) && Barren(exec) && Distinct(p.queue) && n in p.queue && s in p.Slots(n)
             && (n, s.name) in p.incoming
    requires var m := p.incoming[(n, s.name)].node; m in p.queue && After(p.queue, n, m) && Fed(p, m)
    ensures !ComputesMeaning(Reflag(p, n), exec, rank, Run(Reflag(p, n), exec).trace)
  {
    hide Eval, Inv, Reflag, Sorted, AfterRound, Rounds, Covered, SameShape, Fed, After, ComputesMeaning, Doomed, Traced;
    var q, m := Reflag(p, n), p.incoming[(n, s.name)].node;
    var st := Initial(q);
    ReflagFacts(p, n);
    FailingVerdict(p, n, exec, rank, n);
    InitialInv(q, exec, rank);
    FirstRound(q, exec, rank);
    IsFed(p, n, s);
    ReflagFed(p, n, n);
    ReflagFed(p, n, m);
    if Sorted(q, st).ready == [] {
      NothingRuns(q, exec);
    } else {
      forall k | k != n && Fed(q, k) ensures Eval(q, exec, rank, k) == Skipped {
        FailingVerdict(p, n, exec, rank, k);
      }
      var t :| t in q.Slots(n) && t.name == s.name;
      SecondRoundIsDoomed(q, exec, rank, n, m, t);
      FirstRoundThenRest(q, exec);
      DoomedRound(q, exec, rank, AfterRound(q, exec, st), n, m);
    }
    UntracedIsLost(q, exec, rank, Run(q, exec).trace, n);
  }

  lemma SecondRoundIsDoomed(q: Plan, exec: Exec, rank: Rank, n: Id, m: Id, t: InputSlot)
    requires Barren(exec) && Inv(q, exec, rank, AfterRound(q, exec, Initial(q)))
    requires AfterRound(q, exec, Initial(q)).finished == set k | k in q.queue && !Fed(q, k)
    requires n in q.queue && m in q.queue && After(q.queue, n, m) && Fed(q, n) && Fed(q, m)
    requires t in q.Slots(n) && (n, t.name) in q.incoming && q.incoming[(n, t.name)].node == m
    requires forall k | k != n && Fed(q, k) :: Eval(q, exec, rank, k) == Skipped
    ensures Doomed(q, exec, rank, AfterRound(q, exec, Initial(q)), n, m)
  {
    hide Eval, Fed, After, AfterRound, Faithful, Truthful;
    PendingIs(q, exec, rank, AfterRound(q, exec, Initial(q)));
  }

  lemma UntracedIsLost(p: Plan, exec: Exec, rank: Rank, trace: seq<TraceRecord>, n: Id)
    requires Ranks(p, rank) && n in p.queue && Eval(p, exec, rank, n).Ran? && !Traced(trace, n)
    ensures !ComputesMeaning(p, exec, rank, trace)
  {
  }

  lemma NothingRuns(p: Plan, exec: Exec)
    requires Sorted(p, Initial(p)).ready == []
    ensures forall n :: !Traced(Run(p, exec).trace, n)
  {
  }

  lemma FirstRoundThenRest(p: Plan, exec: Exec)
    requires Sorted(p, Initial(p)).ready != []
    ensures Run(p, exec) == Rounds(p, exec, AfterRound(p, exec, Initial(p)))
  {
  }

  lemma PendingIs(p: Plan, exec: Exec, rank: Rank, st: State)
    requires Inv(p, exec, rank, st)
    ensures st.pending == Without(p.queue, st.finished)
  {
  }

  lemma InitialInv(p: Plan, exec: Exec, rank: Rank)
    requires Ranks(p, rank) && Distinct(p.queue)
    ensures Inv(p, exec, rank, Initial(p))
  {
    WithoutNone(p.queue, {});
  }

  /** Any unsafe edge loses a node, for suitable required flags and bodies that produce nothing. */
  lemma UnsafeEdgeLoses(p: Plan, exec: Exec, rank: Rank, n: Id, s: InputSlot)
    requires Ranks(p, rank) && Barren(exec) && Distinct(p.queue)
    requires n in p.queue && s in p.Slots(n) && (n, s.name) in p.incoming && !EdgeSafe(p, n, s)
    ensures !ComputesMeaning(Reflag(p, n), exec, rank, Run(Reflag(p, n), exec).trace)
  {
    hide Barren, Fed, ComputesMeaning;
    if p.incoming[(n, s.name)].node !in p.queue {
      ForeignEdgeLoses(p, exec, rank, n, s);
    } else {
      BackwardEdgeLoses(p, exec, rank, n, s);
    }
  }

  lemma SafeIsAlwaysRight(p: Plan, rank: Rank)
    requires Ranks(p, rank) && Distinct(p.queue) && OrderSafe(p)
    ensures AlwaysComputesMeaning(p, rank)
  {
    hide OrderSafe, ComputesMeaning, Covered, SameShape;
    forall q, exec | SameShape(p, q) && Covered(q)
      ensures Ranks(q, rank) && ComputesMeaning(q, exec, rank, Run(q, exec).trace)
    {
      ShapeKeepsRanks(p, q, rank);
      SafetyIsShape(p, q);
      SafeOrderComputesMeaning(q, exec, rank);
    }
  }

  lemma ShapeKeepsRanks(p: Plan, q: Plan, rank: Rank)
    requires SameShape(p, q)
    ensures Ranks(p, rank) <==> Ranks(q, rank)
    ensures q.queue == p.queue
  {
  }

  /** The node list is safe if and only if, whatever the required flags and the node bodies are, the
      engine executes exactly what the graph means. */
  lemma SafeOrderIsExact(p: Plan, rank: Rank)
    requires Ranks(p, rank) && Distinct(p.queue)
    ensures OrderSafe(p) <==> AlwaysComputesMeaning(p, rank)
  {
    hide EdgeSafe, AlwaysComputesMeaning, Distinct;
    if OrderSafe(p) {
      SafeIsAlwaysRight(p, rank);
    } else {
      var n, s :| n in p.queue && s in p.Slots(n) && (n, s.name) in p.incoming && !EdgeSafe(p, n, s);
      UnsafeIsNotAlwaysRight(p, rank, n, s);
    }
  }

  lemma UnsafeIsNotAlwaysRight(p: Plan, rank: Rank, n: Id, s: InputSlot)
    requires Ranks(p, rank) && Distinct(p.queue)
    requires n in p.queue && s in p.Slots(n) && (n, s.name) in p.incoming && !EdgeSafe(p, n, s)
    ensures !AlwaysComputesMeaning(p, rank)
  {
    hide EdgeSafe, Barren, ComputesMeaning, Reflag, Covered, SameShape, AlwaysComputesMeaning, Distinct, Run;
    var exec := SomeBarrenExec();
    ReflagFacts(p, n);
    UnsafeEdgeLoses(p, exec, rank, n, s);
    LosingIsNotAlways(p, Reflag(p, n), exec, rank);
  }

  lemma SomeBarrenExec() returns (exec: Exec)
    ensures Barren(exec)
  {
    exec := (n, inputs) => Failed("");
  }

  lemma LosingIsNotAlways(p: Plan, q: Plan, exec: Exec, rank: Rank)
    requires Ranks(p, rank) && SameShape(p, q) && Covered(q)
    requires Ranks(q, rank) ==> !ComputesMeaning(q, exec, rank, Run(q, exec).trace)
    ensures !AlwaysComputesMeaning(p, rank)
  {
    hide ComputesMeaning, Covered;
  }

  lemma SafetyIsShape(p: Plan, q: Plan)
    requires SameShape(p, q) && OrderSafe(p)
    ensures OrderSafe(q)
  {
    forall k ensures Fed(q, k) ==> Fed(p, k) {
      if s :| s in q.Slots(k) && (k, s.name) in q.incoming {
        var t := SameSlot(p, q, k, s);
      }
    }
    forall n, s | n in q.queue && s in q.Slots(n) && (n, s.name) in q.incoming ensures EdgeSafe(q, n, s) {
      var t := SameSlot(p, q, n, s);
      assert EdgeSafe(p, n, t);
    }
  }

  lemma SameSlot(p: Plan, q: Plan, k: Id, s: InputSlot) returns (t: InputSlot)
    requires SameShape(p, q) && s in q.Slots(k)
    ensures t in p.Slots(k) && t.name == s.name
  {
    var i :| 0 <= i < |q.Slots(k)| && q.Slots(k)[i] == s;
    t := p.Slots(k)[i];
  }
}
