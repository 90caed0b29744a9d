/** The round loop refines the recursive evaluator: nothing it does is wrong, for any graph,
any order of the node list and any node bodies. */
module Soundness {
  import opened Digraph
  import opened Wrappers
  import opened Graph
  import opened Schedule
  import opened Denotation

  /** m is listed after n. */
  predicate After(list: seq<Id>, n: Id, m: Id) {
    list != [] && ((list[0] == n && m in list[1..]) || After(list[1..], n, m))
  }

  lemma {:induction false} AfterWithout(list: seq<Id>, gone: set<Id>, n: Id, m: Id)
    requires After(Without(list, gone), n, m)
    ensures After(list, n, m)
  {
    if list[0] in gone {
      AfterWithout(list[1..], gone, n, m);
    } else {
      var rest := Without(list[1..], gone);
      assert Without(list, gone)[1..] == rest;
      if !(list[0] == n && m in rest) {
        AfterWithout(list[1..], gone, n, m);
      }
    }
  }

  /** Every executed node ran as the evaluator says, once; every finished node it calls for ran. */
  ghost predicate Truthful(p: Plan, exec: Exec, rank: Rank, finished: set<Id>, trace: seq<TraceRecord>)
    requires Ranks(p, rank)
  {
    && (forall i | 0 <= i < |trace| ::
          trace[i].node in finished && Eval(p, exec, rank, trace[i].node) == Ran(trace[i].inputs, trace[i].outcome))
    && (forall i, j | 0 <= i < j < |trace| :: trace[i].node != trace[j].node)
    && (forall n {:trigger Traced(trace, n)} | n in finished && Eval(p, exec, rank, n).Ran? :: Traced(trace, n))
  }

  ghost predicate Traced(trace: seq<TraceRecord>, n: Id) {
    exists i :: 0 <= i < |trace| && trace[i].node == n
  }

  /** Each edge-fed input is the output slot of a record strictly earlier in the trace. */
  ghost predicate Provenance(p: Plan, trace: seq<TraceRecord>) {
    forall i, name | 0 <= i < |trace| && name in trace[i].inputs && (trace[i].node, name) in p.incoming ::
      FedBefore(trace, i, p.incoming[(trace[i].node, name)], trace[i].inputs[name])
  }

  ghost predicate FedBefore(trace: seq<TraceRecord>, i: nat, port: Port, v: Value)
    requires i <= |trace|
  {
    exists j :: 0 <= j < i && trace[j].node == port.node
             && port.slot in trace[j].outcome.Outputs() && trace[j].outcome.Outputs()[port.slot] == v
  }

  ghost predicate Inv(p: Plan, exec: Exec, rank: Rank, st: State) {
    && Ranks(p, rank) && Distinct(p.queue)
    && st.pending == Without(p.queue, st.finished)
    && Faithful(p, exec, rank, st.finished, st.available)
    && Truthful(p, exec, rank, st.finished, st.trace)
    && Provenance(p, st.trace)
    && AllSettled(p, st.finished, st.trace)
  }

  /** A node runs only after the sources of all its winning edges are settled. */
  ghost predicate AllSettled(p: Plan, finished: set<Id>, trace: seq<TraceRecord>) {
    forall i | 0 <= i < |trace| :: Settled(p, finished, trace[i].node)
  }

  // ----- One pass -----

  /** n is left waiting by a pass: the edge of some slot comes from a node unsettled when n was
      looked at; if that node is settled after all, the pass blocked it later in the list. */
  ghost predicate LeftBehind(p: Plan, todo: seq<Id>, before: set<Id>, after: set<Id>,
                             available: map<Port, Value>, n: Id, s: InputSlot) {
    && Awaits(p, n, s, before, available)
    && (p.incoming[(n, s.name)].node in after ==> After(todo, n, p.incoming[(n, s.name)].node))
  }

  ghost predicate PassOk(p: Plan, exec: Exec, rank: Rank, todo: seq<Id>, finished: set<Id>,
                         available: map<Port, Value>, r: Pass)
    requires Ranks(p, rank)
  {
    && finished <= r.finished
    && (forall m | m in r.finished :: m in finished || (m in todo && Eval(p, exec, rank, m) == Skipped))
    && r.kept == Without(todo, r.finished)
    && (forall e | e in r.ready :: ReadyOk(p, exec, rank, todo, finished, r, e))
    && Distinct(ReadyIds(r.ready))
    && (forall n | n in r.kept :: n in ReadyIds(r.ready) || Stays(p, todo, finished, r.finished, available, n))
  }

  ghost predicate ReadyOk(p: Plan, exec: Exec, rank: Rank, todo: seq<Id>, before: set<Id>, r: Pass, e: (Id, Inputs))
    requires Ranks(p, rank)
  {
    && e.0 in r.kept
    && Eval(p, exec, rank, e.0) == Ran(e.1, exec(e.0, e.1))
    && SettledInTurn(p, todo, before, r.finished, e.0)
  }

  ghost predicate Stays(p: Plan, todo: seq<Id>, before: set<Id>, after: set<Id>, available: map<Port, Value>, n: Id) {
    exists s :: LeftBehind(p, todo, before, after, available, n, s)
  }

  /** The winning edge of every slot of n comes from a finished node. */
  ghost predicate Settled(p: Plan, finished: set<Id>, n: Id) {
    forall s | s in p.Slots(n) && (n, s.name) in p.incoming :: p.incoming[(n, s.name)].node in finished
  }

  /** The same, as seen when n was looked at: nodes listed after n were settled by earlier passes. */
  ghost predicate SettledInTurn(p: Plan, todo: seq<Id>, before: set<Id>, after: set<Id>, n: Id) {
    forall s | s in p.Slots(n) && (n, s.name) in p.incoming ::
      var m := p.incoming[(n, s.name)].node;
      m in after && (After(todo, n, m) ==> m in before)
  }

  lemma {:induction false} ReadyIsSettled(p: Plan, n: Id, finished: set<Id>, available: map<Port, Value>,
                                          slots: seq<InputSlot>, got: Inputs)
    requires forall port | port in available :: port.node in finished
    requires Scan(p, n, finished, available, slots, got).Ready?
    ensures forall s | s in slots && (n, s.name) in p.incoming :: p.incoming[(n, s.name)].node in finished
    decreases |slots|
  {
    if slots != [] {
      match SupplyOf(p, n, finished, available, slots[0].name)
      case Given(v) => ReadyIsSettled(p, n, finished, available, slots[1..], got[slots[0].name := v]);
      case Never => ReadyIsSettled(p, n, finished, available, slots[1..], got);
    }
  }

  lemma {:induction false} WithoutNone<T(!new)>(s: seq<T>, gone: set<T>)
    requires forall x | x in s :: x !in gone
    ensures Without(s, gone) == s
  {
    if s != [] {
      WithoutNone(s[1..], gone);
    }
  }

  lemma BlockedStaysFaithful(p: Plan, exec: Exec, rank: Rank, finished: set<Id>, available: map<Port, Value>, n: Id)
    requires Ranks(p, rank) && Faithful(p, exec, rank, finished, available)
    requires n in p.queue && Eval(p, exec, rank, n) == Skipped
    ensures Faithful(p, exec, rank, finished + {n}, available)
  {
  }

  lemma {:induction false} ClassifyOk(p: Plan, exec: Exec, rank: Rank, todo: seq<Id>, finished: set<Id>,
                                      available: map<Port, Value>)
    requires Ranks(p, rank) && Faithful(p, exec, rank, finished, available)
    requires Distinct(todo) && forall n | n in todo :: n in p.queue && n !in finished
    ensures PassOk(p, exec, rank, todo, finished, available, Classify(p, todo, finished, available))
    decreases |todo|
  {
    hide PassOk, Faithful, Eval;
    if todo == [] {
      EmptyPassOk(p, exec, rank, finished, available);
    } else {
      var n, rest := todo[0], todo[1..];
      assert forall m :: m in todo <==> m == n || m in rest;
      GatherMeaning(p, exec, rank, n, finished, available);
      match Gather(p, n, finished, available)
      case Blocked =>
        BlockedStaysFaithful(p, exec, rank, finished, available, n);
        ClassifyOk(p, exec, rank, rest, finished + {n}, available);
        BlockedCase(p, exec, rank, todo, finished, available, Classify(p, rest, finished + {n}, available));
      case Waiting =>
        ClassifyOk(p, exec, rank, rest, finished, available);
        var s :| Awaits(p, n, s, finished, available);
        WaitingCase(p, exec, rank, todo, finished, available, s, Classify(p, rest, finished, available));
      case Ready(inputs) =>
        ClassifyOk(p, exec, rank, rest, finished, available);
        GatherSettles(p, exec, rank, n, finished, available);
        ReadyCase(p, exec, rank, todo, finished, available, inputs, Classify(p, rest, finished, available));
    }
  }

  lemma EmptyPassOk(p: Plan, exec: Exec, rank: Rank, finished: set<Id>, available: map<Port, Value>)
    requires Ranks(p, rank)
    ensures PassOk(p, exec, rank, [], finished, available, Pass([], finished, []))
  {
  }

  lemma GatherSettles(p: Plan, exec: Exec, rank: Rank, n: Id, finished: set<Id>, available: map<Port, Value>)
    requires Ranks(p, rank) && Faithful(p, exec, rank, finished, available)
    ensures Gather(p, n, finished, available).Ready? ==> Settled(p, finished, n)
  {
    if Gather(p, n, finished, available).Ready? {
      ReadyIsSettled(p, n, finished, available, p.Slots(n), map[]);
    }
  }

  lemma {:induction false} AfterIsListed(list: seq<Id>, n: Id, m: Id)
    requires After(list, n, m)
    ensures n in list && m in list[1..]
  {
    if !(list[0] == n && m in list[1..]) {
      AfterIsListed(list[1..], n, m);
    }
  }

  lemma StaysInLongerList(p: Plan, todo: seq<Id>, before: set<Id>, smaller: set<Id>, after: set<Id>,
                          available: map<Port, Value>, n: Id)
    requires todo != [] && smaller <= before && Stays(p, todo[1..], before, after, available, n)
    ensures Stays(p, todo, smaller, after, available, n)
  {
    var s :| LeftBehind(p, todo[1..], before, after, available, n, s);
    assert LeftBehind(p, todo, smaller, after, available, n, s);
  }

  /** Looking at one more node first does not change what is known about the later ones. */
  lemma ReadyInLongerPass(p: Plan, exec: Exec, rank: Rank, todo: seq<Id>, before: set<Id>, smaller: set<Id>,
                          r: Pass, r': Pass)
    requires Ranks(p, rank) && todo != [] && Distinct(todo) && smaller <= before <= smaller + {todo[0]}
    requires r.finished == r'.finished && r.kept == Without(todo[1..], r.finished)
    requires forall n | n in r.kept :: n in r'.kept
    requires forall e | e in r.ready :: ReadyOk(p, exec, rank, todo[1..], before, r, e)
    ensures forall e | e in r.ready :: ReadyOk(p, exec, rank, todo, smaller, r', e)
  {
    hide Eval;
    forall e | e in r.ready ensures ReadyOk(p, exec, rank, todo, smaller, r', e) {
      assert ReadyOk(p, exec, rank, todo[1..], before, r, e);
      assert e.0 in todo[1..];
      SettledInLongerList(p, todo, before, smaller, r.finished, e.0);
    }
  }

  lemma SettledInLongerList(p: Plan, todo: seq<Id>, before: set<Id>, smaller: set<Id>, after: set<Id>, n: Id)
    requires todo != [] && Distinct(todo) && smaller <= before <= smaller + {todo[0]}
    requires n in todo[1..] && SettledInTurn(p, todo[1..], before, after, n)
    ensures SettledInTurn(p, todo, smaller, after, n)
  {
    forall s | s in p.Slots(n) && (n, s.name) in p.incoming
      ensures var m := p.incoming[(n, s.name)].node; m in after && (After(todo, n, m) ==> m in smaller)
    {
      var m := p.incoming[(n, s.name)].node;
      if After(todo, n, m) {
        AfterIsListed(todo, n, m);
        assert n != todo[0] && m != todo[0];
      }
    }
  }

  lemma BlockedCase(p: Plan, exec: Exec, rank: Rank, todo: seq<Id>, finished: set<Id>, available: map<Port, Value>,
                    r: Pass)
    requires Ranks(p, rank) && todo != [] && Distinct(todo) && Eval(p, exec, rank, todo[0]) == Skipped
    requires PassOk(p, exec, rank, todo[1..], finished + {todo[0]}, available, r)
    ensures PassOk(p, exec, rank, todo, finished, available, r)
  {
    hide Eval, Stays, ReadyOk;
    assert todo[0] in r.finished;
    ReadyInLongerPass(p, exec, rank, todo, finished + {todo[0]}, finished, r, r);
    forall n | n in r.kept && n !in ReadyIds(r.ready) ensures Stays(p, todo, finished, r.finished, available, n) {
      StaysInLongerList(p, todo, finished + {todo[0]}, finished, r.finished, available, n);
    }
  }

  lemma WaitingCase(p: Plan, exec: Exec, rank: Rank, todo: seq<Id>, finished: set<Id>, available: map<Port, Value>,
                    s: InputSlot, r: Pass)
    requires Ranks(p, rank) && todo != [] && Distinct(todo) && todo[0] !in finished
    requires Awaits(p, todo[0], s, finished, available)
    requires PassOk(p, exec, rank, todo[1..], finished, available, r)
    ensures PassOk(p, exec, rank, todo, finished, available, Pass([todo[0]] + r.kept, r.finished, r.ready))
  {
    hide Eval, Stays, ReadyOk, Awaits;
    var n := todo[0];
    var r' := Pass([n] + r.kept, r.finished, r.ready);
    assert n !in todo[1..] && n !in r.finished;
    ReadyInLongerPass(p, exec, rank, todo, finished, finished, r, r');
    forall m | m in r'.kept && m !in ReadyIds(r'.ready) ensures Stays(p, todo, finished, r.finished, available, m) {
      if m == n {
        StaysAtHead(p, todo, finished, r.finished, available, s);
      } else {
        StaysInLongerList(p, todo, finished, finished, r.finished, available, m);
      }
    }
  }

  lemma StaysAtHead(p: Plan, todo: seq<Id>, before: set<Id>, after: set<Id>, available: map<Port, Value>, s: InputSlot)
    requires todo != [] && Awaits(p, todo[0], s, before, available)
    requires forall m | m in after :: m in before || m in todo[1..]
    ensures Stays(p, todo, before, after, available, todo[0])
  {
    assert LeftBehind(p, todo, before, after, available, todo[0], s);
  }

  lemma ReadyCase(p: Plan, exec: Exec, rank: Rank, todo: seq<Id>, finished: set<Id>, available: map<Port, Value>,
                  inputs: Inputs, r: Pass)
    requires Ranks(p, rank) && todo != [] && Distinct(todo) && todo[0] !in finished
    requires Eval(p, exec, rank, todo[0]) == Ran(inputs, exec(todo[0], inputs))
    requires Settled(p, finished, todo[0])
    requires PassOk(p, exec, rank, todo[1..], finished, available, r)
    ensures PassOk(p, exec, rank, todo, finished, available,
                   Pass([todo[0]] + r.kept, r.finished, [(todo[0], inputs)] + r.ready))
  {
    hide Eval, Stays;
    var n := todo[0];
    var r' := Pass([n] + r.kept, r.finished, [(n, inputs)] + r.ready);
    assert n !in todo[1..] && n !in r.finished;
    ReadyInLongerPass(p, exec, rank, todo, finished, finished, r, r');
    assert ReadyOk(p, exec, rank, todo, finished, r', (n, inputs));
    assert ReadyIds(r'.ready) == [n] + ReadyIds(r.ready);
    ReadyAreKept(p, exec, rank, todo[1..], finished, r);
    DistinctCons(n, ReadyIds(r.ready));
    forall m | m in r'.kept && m !in ReadyIds(r'.ready) ensures Stays(p, todo, finished, r.finished, available, m) {
      StaysInLongerList(p, todo, finished, finished, r.finished, available, m);
    }
  }

  lemma ReadyAreKept(p: Plan, exec: Exec, rank: Rank, todo: seq<Id>, before: set<Id>, r: Pass)
    requires Ranks(p, rank) && forall e | e in r.ready :: ReadyOk(p, exec, rank, todo, before, r, e)
    ensures forall m | m in ReadyIds(r.ready) :: m in r.kept
  {
    forall m | m in ReadyIds(r.ready) ensures m in r.kept {
      var i :| 0 <= i < |r.ready| && ReadyIds(r.ready)[i] == m;
      assert r.ready[i] in r.ready;
    }
  }

  // ----- One round -----

  lemma {:induction false} WithoutTwice(s: seq<Id>, a: set<Id>, b: set<Id>)
    requires a <= b
    ensures Without(Without(s, a), b) == Without(s, b)
  {
    if s != [] {
      WithoutTwice(s[1..], a, b);
    }
  }

  lemma {:induction false} RemoveIsWithout(s: seq<Id>, gone: set<Id>, x: Id)
    requires Distinct(s) && x !in gone
    ensures RemoveFirst(Without(s, gone), x) == Without(s, gone + {x})
  {
    if s != [] {
      RemoveIsWithout(s[1..], gone, x);
      if s[0] == x {
        assert Without(s, gone)[1..] == Without(s[1..], gone);
        SameWithout(s[1..], gone, gone + {x});
      } else if s[0] !in gone {
        assert Without(s, gone)[1..] == Without(s[1..], gone);
      }
    }
  }

  lemma {:induction false} SameWithout(s: seq<Id>, a: set<Id>, b: set<Id>)
    requires forall x | x in s :: x in a <==> x in b
    ensures Without(s, a) == Without(s, b)
  {
    if s != [] {
      SameWithout(s[1..], a, b);
    }
  }

  lemma PassInv(p: Plan, exec: Exec, rank: Rank, st: State)
    requires Inv(p, exec, rank, st)
    ensures PassOk(p, exec, rank, st.pending, st.finished, st.available, Sorted(p, st))
    ensures Inv(p, exec, rank, AfterPass(p, st))
  {
    WithoutDistinct(p.queue, st.finished);
    ClassifyOk(p, exec, rank, st.pending, st.finished, st.available);
    var r := Sorted(p, st);
    WithoutTwice(p.queue, st.finished, r.finished);
    BlockedKeepsFaith(p, exec, rank, st.finished, r.finished, st.available);
    BlockedKeepsTruth(p, exec, rank, st.finished, r.finished, st.trace);
  }

  lemma BlockedKeepsFaith(p: Plan, exec: Exec, rank: Rank, finished: set<Id>, more: set<Id>,
                          available: map<Port, Value>)
    requires Ranks(p, rank) && finished <= more && Faithful(p, exec, rank, finished, available)
    requires forall m | m in more :: m in finished || (m in p.queue && Eval(p, exec, rank, m) == Skipped)
    ensures Faithful(p, exec, rank, more, available)
  {
  }

  lemma BlockedKeepsTruth(p: Plan, exec: Exec, rank: Rank, finished: set<Id>, more: set<Id>, trace: seq<TraceRecord>)
    requires Ranks(p, rank) && finished <= more && Truthful(p, exec, rank, finished, trace)
    requires forall m | m in more :: m in finished || Eval(p, exec, rank, m) == Skipped
    ensures Truthful(p, exec, rank, more, trace)
  {
  }

  lemma AbsorbInv(p: Plan, exec: Exec, rank: Rank, st: State, n: Id, inputs: Inputs, outcome: Outcome)
    requires Inv(p, exec, rank, st) && n in p.queue && n !in st.finished
    requires Eval(p, exec, rank, n) == Ran(inputs, outcome) && Settled(p, st.finished, n)
    ensures Inv(p, exec, rank, Absorb(st, n, inputs, outcome))
  {
    hide Eval;
    RemoveIsWithout(p.queue, st.finished, n);
    AbsorbFaith(p, exec, rank, st.finished, st.available, n, inputs, outcome);
    AbsorbTruth(p, exec, rank, st.finished, st.trace, n, inputs, outcome);
    AbsorbProvenance(p, exec, rank, st, n, inputs, outcome);
  }

  lemma AbsorbFaith(p: Plan, exec: Exec, rank: Rank, finished: set<Id>, available: map<Port, Value>,
                    n: Id, inputs: Inputs, outcome: Outcome)
    requires Ranks(p, rank) && Faithful(p, exec, rank, finished, available) && n in p.queue && n !in finished
    requires Eval(p, exec, rank, n) == Ran(inputs, outcome)
    ensures Faithful(p, exec, rank, finished + {n}, available + Ports(n, outcome.Outputs()))
  {
    hide Eval;
    var more := available + Ports(n, outcome.Outputs());
    forall port: Port | port.node in finished + {n} && Carried(p, exec, rank, port).Some? ensures port in more {
      if port.node == n {
        assert port in Ports(n, outcome.Outputs());
      }
    }
  }

  lemma AbsorbTruth(p: Plan, exec: Exec, rank: Rank, finished: set<Id>, trace: seq<TraceRecord>,
                    n: Id, inputs: Inputs, outcome: Outcome)
    requires Ranks(p, rank) && Truthful(p, exec, rank, finished, trace) && n !in finished
    requires Eval(p, exec, rank, n) == Ran(inputs, outcome)
    ensures Truthful(p, exec, rank, finished + {n}, trace + [TraceRecord(n, inputs, outcome)])
  {
    hide Eval;
    var more := trace + [TraceRecord(n, inputs, outcome)];
    forall m | m in finished + {n} && Eval(p, exec, rank, m).Ran? ensures Traced(more, m) {
      if m == n {
        assert more[|trace|].node == m;
      } else {
        assert Traced(trace, m);
        var i :| 0 <= i < |trace| && trace[i].node == m;
        assert more[i].node == m;
      }
    }
  }

  lemma AbsorbProvenance(p: Plan, exec: Exec, rank: Rank, st: State, n: Id, inputs: Inputs, outcome: Outcome)
    requires Inv(p, exec, rank, st)
    requires Eval(p, exec, rank, n) == Ran(inputs, outcome) && Settled(p, st.finished, n)
    ensures Provenance(p, st.trace + [TraceRecord(n, inputs, outcome)])
  {
    var more := st.trace + [TraceRecord(n, inputs, outcome)];
    forall i, name | 0 <= i < |more| && name in more[i].inputs && (more[i].node, name) in p.incoming
      ensures FedBefore(more, i, p.incoming[(more[i].node, name)], more[i].inputs[name])
    {
      var port := p.incoming[(more[i].node, name)];
      if i < |st.trace| {
        assert more[i] == st.trace[i];
        assert FedBefore(st.trace, i, port, more[i].inputs[name]);
        var j :| 0 <= j < i && st.trace[j].node == port.node
              && port.slot in st.trace[j].outcome.Outputs()
                 && st.trace[j].outcome.Outputs()[port.slot] == more[i].inputs[name];
        assert more[j] == st.trace[j];
      } else {
        InputTraced(p, exec, rank, st, n, inputs, outcome, name);
        var j :| 0 <= j < |st.trace| && st.trace[j].node == port.node
              && port.slot in st.trace[j].outcome.Outputs() && st.trace[j].outcome.Outputs()[port.slot] == inputs[name];
        assert more[j] == st.trace[j];
      }
    }
  }

  lemma InputTraced(p: Plan, exec: Exec, rank: Rank, st: State, n: Id, inputs: Inputs, outcome: Outcome, name: Slot)
    requires Inv(p, exec, rank, st)
    requires Eval(p, exec, rank, n) == Ran(inputs, outcome) && Settled(p, st.finished, n)
    requires name in inputs && (n, name) in p.incoming
    ensures FedBefore(st.trace, |st.trace|, p.incoming[(n, name)], inputs[name])
  {
    var port := p.incoming[(n, name)];
    assert Arrival(p, exec, rank, n, name) == Some(inputs[name]);
    assert Traced(st.trace, port.node);
    var j :| 0 <= j < |st.trace| && st.trace[j].node == port.node;
    assert Eval(p, exec, rank, port.node) == Ran(st.trace[j].inputs, st.trace[j].outcome);
  }

  lemma {:induction false} AbsorbAllInv(p: Plan, exec: Exec, rank: Rank, st: State, todo: seq<Id>, before: set<Id>,
                                        r: Pass, k: nat)
    requires Ranks(p, rank) && Inv(p, exec, rank, st) && k <= |r.ready|
    requires r.finished == st.finished && r.kept == st.pending
    requires forall e | e in r.ready :: ReadyOk(p, exec, rank, todo, before, r, e)
    requires Distinct(ReadyIds(r.ready))
    ensures Inv(p, exec, rank, AbsorbAll(exec, st, r.ready, k))
    ensures AbsorbAll(exec, st, r.ready, k).finished == st.finished + Elements(ReadyIds(r.ready)[..k])
    decreases k
  {
    hide Inv, Eval, ReadyOk, Settled, Absorb;
    if k > 0 {
      AbsorbAllInv(p, exec, rank, st, todo, before, r, k - 1);
      var prev, ids := AbsorbAll(exec, st, r.ready, k - 1), ReadyIds(r.ready);
      var (n, inputs) := r.ready[k - 1];
      ReadyEntry(p, exec, rank, todo, before, r, r.ready[k - 1]);
      assert ids[..k] == ids[..k - 1] + [n];
      ElementsAppend(ids[..k - 1], n);
      assert n !in ids[..k - 1];
      PendingUnfinished(p, exec, rank, st, n);
      SettledStays(p, st.finished, prev.finished, n);
      AbsorbInv(p, exec, rank, prev, n, inputs, exec(n, inputs));
      AbsorbFinishes(prev, n, inputs, exec(n, inputs));
    }
  }

  lemma AbsorbFinishes(st: State, n: Id, inputs: Inputs, outcome: Outcome)
    ensures Absorb(st, n, inputs, outcome).finished == st.finished + {n}
  {
  }

  lemma SettledStays(p: Plan, finished: set<Id>, more: set<Id>, n: Id)
    requires Settled(p, finished, n) && finished <= more
    ensures Settled(p, more, n)
  {
  }

  lemma ReadyEntry(p: Plan, exec: Exec, rank: Rank, todo: seq<Id>, before: set<Id>, r: Pass, e: (Id, Inputs))
    requires Ranks(p, rank) && e in r.ready
    requires forall x | x in r.ready :: ReadyOk(p, exec, rank, todo, before, r, x)
    ensures e.0 in r.kept && Eval(p, exec, rank, e.0) == Ran(e.1, exec(e.0, e.1)) && Settled(p, r.finished, e.0)
  {
    assert ReadyOk(p, exec, rank, todo, before, r, e);
  }

  lemma PendingUnfinished(p: Plan, exec: Exec, rank: Rank, st: State, n: Id)
    requires Inv(p, exec, rank, st) && n in st.pending
    ensures n in p.queue && n !in st.finished
  {
  }

  lemma RoundInv(p: Plan, exec: Exec, rank: Rank, st: State)
    requires Inv(p, exec, rank, st)
    ensures Inv(p, exec, rank, AfterRound(p, exec, st))
    ensures AfterRound(p, exec, st).finished == Sorted(p, st).finished + Elements(ReadyIds(Sorted(p, st).ready))
  {
    PassInv(p, exec, rank, st);
    var r := Sorted(p, st);
    var st' := AfterPass(p, st).(starts := st.starts + [ReadyIds(r.ready)]);
    assert Inv(p, exec, rank, st');
    AbsorbAllInv(p, exec, rank, st', st.pending, st.finished, r, |r.ready|);
    assert ReadyIds(r.ready)[..|r.ready|] == ReadyIds(r.ready);
  }

  // ----- The whole run -----

  /** How a run ends: everything it did is right, and whoever is still pending was left behind by
      a pass that found nobody ready. */
  ghost predicate Final(p: Plan, exec: Exec, rank: Rank, st: State) {
    && Inv(p, exec, rank, st)
    && forall n | n in st.pending :: Stranded(p, exec, rank, st, n)
  }

  ghost predicate Stranded(p: Plan, exec: Exec, rank: Rank, st: State, n: Id)
    requires Ranks(p, rank)
  {
    exists s :: StrandedAt(p, exec, rank, st, n, s)
  }

  /** Slot s of n still waits; its source was never finished, or was skipped after n was looked at. */
  ghost predicate StrandedAt(p: Plan, exec: Exec, rank: Rank, st: State, n: Id, s: InputSlot)
    requires Ranks(p, rank)
  {
    && s in p.Slots(n) && (n, s.name) in p.incoming
    && var m := p.incoming[(n, s.name)].node;
       (m in st.finished ==> Eval(p, exec, rank, m) == Skipped && After(p.queue, n, m))
  }

  lemma BreakIsFinal(p: Plan, exec: Exec, rank: Rank, st: State)
    requires Inv(p, exec, rank, st) && Sorted(p, st).ready == []
    ensures Final(p, exec, rank, AfterPass(p, st))
  {
    PassInv(p, exec, rank, st);
    var r := Sorted(p, st);
    forall n | n in r.kept ensures Stranded(p, exec, rank, AfterPass(p, st), n) {
      assert Stays(p, st.pending, st.finished, r.finished, st.available, n);
      var s :| LeftBehind(p, st.pending, st.finished, r.finished, st.available, n, s);
      var m := p.incoming[(n, s.name)].node;
      if m in r.finished {
        AfterWithout(p.queue, st.finished, n, m);
      }
      assert StrandedAt(p, exec, rank, AfterPass(p, st), n, s);
    }
  }

  lemma {:induction false} RoundsFinal(p: Plan, exec: Exec, rank: Rank, st: State)
    requires Inv(p, exec, rank, st)
    ensures Final(p, exec, rank, Rounds(p, exec, st))
    decreases |st.pending|
  {
    hide Inv, Final;
    if st.pending == [] {
      NothingPending(p, exec, rank, st);
    } else if Sorted(p, st).ready == [] {
      BreakIsFinal(p, exec, rank, st);
    } else {
      RoundInv(p, exec, rank, st);
      RoundsFinal(p, exec, rank, AfterRound(p, exec, st));
    }
  }

  lemma NothingPending(p: Plan, exec: Exec, rank: Rank, st: State)
    requires Inv(p, exec, rank, st) && st.pending == []
    ensures Final(p, exec, rank, st)
  {
  }

  /** For every plan, list order and node bodies: each record of the run is what the evaluator
      gives, and each finished node without a record is one the evaluator skips. */
  lemma RunIsFinal(p: Plan, exec: Exec, rank: Rank)
    requires Ranks(p, rank) && Distinct(p.queue)
    ensures Final(p, exec, rank, Run(p, exec))
  {
    WithoutNone(p.queue, {});
    RoundsFinal(p, exec, rank, Initial(p));
  }
}
