/** In which round a node runs: the earliest one that its dependencies allow. */
module Timing {
  import opened Digraph
  import opened Graph
  import opened Schedule
  import opened Denotation
  import opened Soundness
  import opened Refinement

  /** Length of the longest chain of winning edges into n. */
  ghost function Height(p: Plan, rank: Rank, n: Id): nat
    requires Ranks(p, rank)
    decreases rank(n), 1, 0
  {
    HeightOver(p, rank, n, p.Slots(n))
  }

  ghost function HeightOver(p: Plan, rank: Rank, n: Id, slots: seq<InputSlot>): nat
    requires Ranks(p, rank)
    decreases rank(n), 0, |slots|
  {
    if slots == [] then 0
    else
      var rest := HeightOver(p, rank, n, slots[1..]);
      if (n, slots[0].name) !in p.incoming then rest
      else
        var h := Height(p, rank, p.incoming[(n, slots[0].name)].node) + 1;
        if h < rest then rest else h
  }

  lemma {:induction false} HeightOverBounds(p: Plan, rank: Rank, n: Id, slots: seq<InputSlot>)
    requires Ranks(p, rank)
    ensures forall s | s in slots && (n, s.name) in p.incoming ::
              Height(p, rank, p.incoming[(n, s.name)].node) < HeightOver(p, rank, n, slots)
    ensures HeightOver(p, rank, n, slots) > 0 ==>
              exists s :: s in slots && (n, s.name) in p.incoming
                       && Height(p, rank, p.incoming[(n, s.name)].node) + 1 == HeightOver(p, rank, n, slots)
    decreases |slots|
  {
    hide Height;
    if slots != [] {
      HeightOverBounds(p, rank, n, slots[1..]);
      assert slots[0] in slots;
      assert forall s :: s in slots <==> s == slots[0] || s in slots[1..];
    }
  }

  /** All executed sources of an executed node are executed too, when edges are required. */
  lemma SourcesRan(p: Plan, exec: Exec, rank: Rank, n: Id, s: InputSlot)
    requires Ranks(p, rank) && EdgesRequired(p) && n in p.queue && Eval(p, exec, rank, n).Ran?
    requires s in p.Slots(n) && (n, s.name) in p.incoming
    ensures p.incoming[(n, s.name)].node in p.queue && Eval(p, exec, rank, p.incoming[(n, s.name)].node).Ran?
  {
    assert s.required && Arrival(p, exec, rank, n, s.name).Some?;
  }

  /** Nodes started in round q have height q; nodes that will still run are at least as high as
      the number of rounds so far. */
  ghost predicate Timed(p: Plan, exec: Exec, rank: Rank, st: State)
    requires Ranks(p, rank)
  {
    && (forall q, i | 0 <= q < |st.starts| && 0 <= i < |st.starts[q]| :: Height(p, rank, st.starts[q][i]) == q)
    && (forall q | 0 <= q < |st.starts| :: st.starts[q] != [])
    && (forall n | n in st.pending && Eval(p, exec, rank, n).Ran? :: |st.starts| <= Height(p, rank, n))
    && Flatten(st.starts) == TraceIds(st.trace)
  }

  function TraceIds(trace: seq<TraceRecord>): (r: seq<Id>)
    ensures |r| == |trace| && forall i | 0 <= i < |r| :: r[i] == trace[i].node
  {
    seq(|trace|, i requires 0 <= i < |trace| => trace[i].node)
  }

  function Flatten(rounds: seq<seq<Id>>): seq<Id> {
    if rounds == [] then [] else Flatten(rounds[..|rounds| - 1]) + rounds[|rounds| - 1]
  }

  lemma {:induction false} InSomeRound(rounds: seq<seq<Id>>, n: Id)
    requires n in Flatten(rounds)
    ensures exists q :: 0 <= q < |rounds| && n in rounds[q]
  {
    if n !in rounds[|rounds| - 1] {
      InSomeRound(rounds[..|rounds| - 1], n);
      var q :| 0 <= q < |rounds| - 1 && n in rounds[..|rounds| - 1][q];
      assert n in rounds[q];
    }
  }

  lemma {:induction false} AbsorbAllTrace(exec: Exec, st: State, ready: seq<(Id, Inputs)>, k: nat)
    requires k <= |ready|
    ensures TraceIds(AbsorbAll(exec, st, ready, k).trace) == TraceIds(st.trace) + ReadyIds(ready)[..k]
    ensures AbsorbAll(exec, st, ready, k).starts == st.starts
  {
    if k > 0 {
      AbsorbAllTrace(exec, st, ready, k - 1);
      assert ReadyIds(ready)[..k] == ReadyIds(ready)[..k - 1] + [ready[k - 1].0];
    }
  }

  /** A finished node that runs has been started, hence is lower than the number of rounds. */
  lemma StartedIsLow(p: Plan, exec: Exec, rank: Rank, st: State, n: Id)
    requires Inv(p, exec, rank, st) && Timed(p, exec, rank, st)
    requires n in st.finished && Eval(p, exec, rank, n).Ran?
    ensures Height(p, rank, n) < |st.starts|
  {
    hide Eval, Height;
    assert Traced(st.trace, n);
    var i :| 0 <= i < |st.trace| && st.trace[i].node == n;
    assert TraceIds(st.trace)[i] == n;
    InSomeRound(st.starts, n);
    var q :| 0 <= q < |st.starts| && n in st.starts[q];
    var j :| 0 <= j < |st.starts[q]| && st.starts[q][j] == n;
    assert Height(p, rank, st.starts[q][j]) == q;
  }

  lemma ReadyIsOnTime(p: Plan, exec: Exec, rank: Rank, st: State, e: (Id, Inputs))
    requires Inv(p, exec, rank, st) && Timed(p, exec, rank, st) && EdgesRequired(p)
    requires e in Sorted(p, st).ready
    ensures Height(p, rank, e.0) == |st.starts|
  {
    hide Eval, Height;
    PassInv(p, exec, rank, st);
    var r, n := Sorted(p, st), e.0;
    ReadyEntry(p, exec, rank, st.pending, st.finished, r, e);
    HeightOverBounds(p, rank, n, p.Slots(n));
    HeightIs(p, rank, n);
    if Height(p, rank, n) > 0 {
      var s :| s in p.Slots(n) && (n, s.name) in p.incoming
            && Height(p, rank, p.incoming[(n, s.name)].node) + 1 == Height(p, rank, n);
      SourcesRan(p, exec, rank, n, s);
      StartedIsLow(p, exec, rank, st, p.incoming[(n, s.name)].node);
    }
  }

  lemma HeightIs(p: Plan, rank: Rank, n: Id)
    requires Ranks(p, rank)
    ensures Height(p, rank, n) == HeightOver(p, rank, n, p.Slots(n))
  {
  }

  lemma WaitingIsHigh(p: Plan, exec: Exec, rank: Rank, st: State, n: Id)
    requires Inv(p, exec, rank, st) && Timed(p, exec, rank, st) && EdgesRequired(p)
    requires n in Sorted(p, st).kept && n !in ReadyIds(Sorted(p, st).ready) && Eval(p, exec, rank, n).Ran?
    ensures |st.starts| < Height(p, rank, n)
  {
    hide Eval, Height;
    PassInv(p, exec, rank, st);
    var r := Sorted(p, st);
    assert Stays(p, st.pending, st.finished, r.finished, st.available, n);
    var s :| LeftBehind(p, st.pending, st.finished, r.finished, st.available, n, s);
    SourcesRan(p, exec, rank, n, s);
    HeightOverBounds(p, rank, n, p.Slots(n));
    HeightIs(p, rank, n);
  }

  lemma RoundIsTimed(p: Plan, exec: Exec, rank: Rank, st: State)
    requires Ranks(p, rank) && Inv(p, exec, rank, st) && Timed(p, exec, rank, st) && EdgesRequired(p)
    requires Sorted(p, st).ready != []
    ensures Timed(p, exec, rank, AfterRound(p, exec, st))
  {
    hide Eval, Height, Inv, Classify, AbsorbAll;
    var r, next := Sorted(p, st), AfterRound(p, exec, st);
    var ids := ReadyIds(r.ready);
    AbsorbAllTrace(exec, AfterPass(p, st).(starts := st.starts + [ids]), r.ready, |r.ready|);
    assert ids[..|r.ready|] == ids;
    assert next.starts == st.starts + [ids] && next.starts[..|st.starts|] == st.starts;
    forall i | 0 <= i < |ids| ensures Height(p, rank, ids[i]) == |st.starts| {
      assert r.ready[i] in r.ready;
      ReadyIsOnTime(p, exec, rank, st, r.ready[i]);
    }
    NextPending(p, exec, rank, st);
    forall n | n in next.pending && Eval(p, exec, rank, n).Ran? ensures |next.starts| <= Height(p, rank, n) {
      WaitingIsHigh(p, exec, rank, st, n);
    }
  }

  lemma NextPending(p: Plan, exec: Exec, rank: Rank, st: State)
    requires Inv(p, exec, rank, st)
    ensures forall n | n in AfterRound(p, exec, st).pending ::
              n in Sorted(p, st).kept && n !in ReadyIds(Sorted(p, st).ready)
  {
    hide Eval;
    PassInv(p, exec, rank, st);
    RoundInv(p, exec, rank, st);
  }

  lemma {:induction false} RoundsAreTimed(p: Plan, exec: Exec, rank: Rank, st: State)
    requires Inv(p, exec, rank, st) && Timed(p, exec, rank, st) && EdgesRequired(p)
    ensures Timed(p, exec, rank, Rounds(p, exec, st))
    decreases |st.pending|
  {
    hide Eval, Height, Inv, Timed;
    if st.pending != [] {
      if Sorted(p, st).ready == [] {
        PassIsTimed(p, exec, rank, st);
      } else {
        RoundInv(p, exec, rank, st);
        RoundIsTimed(p, exec, rank, st);
        RoundsAreTimed(p, exec, rank, AfterRound(p, exec, st));
      }
    }
  }

  lemma PassIsTimed(p: Plan, exec: Exec, rank: Rank, st: State)
    requires Inv(p, exec, rank, st) && Timed(p, exec, rank, st)
    ensures Timed(p, exec, rank, AfterPass(p, st))
  {
    hide Eval, Height;
    PassInv(p, exec, rank, st);
  }

  /** Every executed node runs in round 1 + the latest round of its sources: the rounds announced
      by the engine are the levels of the longest dependency chains, and none is empty. */
  lemma EarliestRounds(p: Plan, exec: Exec, rank: Rank)
    requires Ranks(p, rank) && Distinct(p.queue) && EdgesRequired(p)
    ensures Timed(p, exec, rank, Run(p, exec))
  {
    InitialInv(p, exec, rank);
    RoundsAreTimed(p, exec, rank, Initial(p));
  }

  /** A schedule in which every executed node comes after the sources of its winning edges. */
  ghost predicate Respects(p: Plan, trace: seq<TraceRecord>, when: Id -> nat) {
    forall i, s | 0 <= i < |trace| && s in p.Slots(trace[i].node) && (trace[i].node, s.name) in p.incoming ::
      when(p.incoming[(trace[i].node, s.name)].node) < when(trace[i].node)
  }

  lemma {:induction false} NeverEarlier(p: Plan, exec: Exec, rank: Rank, st: State, when: Id -> nat, n: Id)
    requires Ranks(p, rank) && ComputesMeaning(p, exec, rank, st.trace) && EdgesRequired(p)
    requires Respects(p, st.trace, when) && n in p.queue && Eval(p, exec, rank, n).Ran?
    ensures Height(p, rank, n) <= when(n)
    decreases rank(n)
  {
    hide Eval, Height;
    HeightOverBounds(p, rank, n, p.Slots(n));
    HeightIs(p, rank, n);
    if Height(p, rank, n) > 0 {
      var s :| s in p.Slots(n) && (n, s.name) in p.incoming
            && Height(p, rank, p.incoming[(n, s.name)].node) + 1 == Height(p, rank, n);
      assert Traced(st.trace, n);
      var i :| 0 <= i < |st.trace| && st.trace[i].node == n;
      SourcesRan(p, exec, rank, n, s);
      NeverEarlier(p, exec, rank, st, when, p.incoming[(n, s.name)].node);
      assert s in p.Slots(st.trace[i].node);
    }
  }

  /** No schedule of the same executed nodes that respects the winning edges has fewer rounds. */
  lemma FewestRounds(p: Plan, exec: Exec, rank: Rank, when: Id -> nat) returns (last: Id)
    requires Ranks(p, rank) && Distinct(p.queue) && EdgesRequired(p)
    requires Run(p, exec).starts != [] && Respects(p, Run(p, exec).trace, when)
    ensures Traced(Run(p, exec).trace, last) && |Run(p, exec).starts| <= when(last) + 1
  {
    hide Eval, Height;
    var st := Run(p, exec);
    EarliestRounds(p, exec, rank);
    RunComputesMeaning(p, exec, rank);
    var q := |st.starts| - 1;
    last := st.starts[q][0];
    assert Height(p, rank, st.starts[q][0]) == q;
    assert Flatten(st.starts) == Flatten(st.starts[..q]) + st.starts[q];
    assert last in TraceIds(st.trace);
    var i :| 0 <= i < |st.trace| && TraceIds(st.trace)[i] == last;
    assert st.trace[i].node == last;
    NeverEarlier(p, exec, rank, st, when, last);
  }
}
