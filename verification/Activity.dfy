/** Live sub-node activity: brackets emitted by node bodies (backend/nodes/agent.py) and the
reference counter they share (backend/api/runs.py). */
module Activity {
  import opened Digraph

  datatype Event = Event(sub: Id, active: bool)

  /** Activations minus deactivations of one sub-node. */
  function Depth(events: seq<Event>, id: Id): int {
    if events == [] then 0
    else
      var e := events[|events| - 1];
      Depth(events[..|events| - 1], id) + if e.sub != id then 0 else if e.active then 1 else -1
  }

  lemma DepthAppend(events: seq<Event>, e: Event, id: Id)
    ensures Depth(events + [e], id) == Depth(events, id) + if e.sub != id then 0 else if e.active then 1 else -1
  {
    assert (events + [e])[..|events|] == events;
  }

  /** No sub-node is ever deactivated more often than it was activated. */
  ghost predicate Bracketed(events: seq<Event>) {
    forall k, id | 0 <= k <= |events| :: Depth(events[..k], id) >= 0
  }

  /** A bracketed sequence whose open brackets are exactly `open`. */
  ghost predicate Opens(events: seq<Event>, open: multiset<Id>) {
    Bracketed(events) && forall id :: Depth(events, id) == open[id]
  }

  lemma OpensNothing()
    ensures Opens([], multiset{})
  {
  }

  lemma OpensIsBracketed(events: seq<Event>, open: multiset<Id>)
    requires Opens(events, open)
    ensures Bracketed(events)
  {
  }

  lemma BeginningIsBracketed(events: seq<Event>, beginning: seq<Event>)
    requires Bracketed(events) && beginning <= events
    ensures Bracketed(beginning)
  {
    forall k, id | 0 <= k <= |beginning| ensures Depth(beginning[..k], id) >= 0 {
      assert beginning[..k] == events[..k];
    }
  }

  lemma BracketedAppend(events: seq<Event>, e: Event)
    requires Bracketed(events) && (!e.active ==> Depth(events, e.sub) > 0)
    ensures Bracketed(events + [e])
  {
    var more := events + [e];
    forall k, id | 0 <= k <= |more| ensures Depth(more[..k], id) >= 0 {
      if k <= |events| {
        assert more[..k] == events[..k];
      } else {
        assert more[..k] == more && events[..|events|] == events;
        DepthAppend(events, e, id);
        assert Depth(events[..|events|], id) >= 0;
      }
    }
  }

  lemma Activate(events: seq<Event>, open: multiset<Id>, x: Id)
    requires Opens(events, open)
    ensures Opens(events + [Event(x, true)], open + multiset{x})
  {
    BracketedAppend(events, Event(x, true));
    forall id ensures Depth(events + [Event(x, true)], id) == (open + multiset{x})[id] {
      DepthAppend(events, Event(x, true), id);
    }
  }

  lemma Deactivate(events: seq<Event>, open: multiset<Id>, x: Id)
    requires Opens(events, open) && x in open
    ensures Opens(events + [Event(x, false)], open - multiset{x})
  {
    BracketedAppend(events, Event(x, false));
    forall id ensures Depth(events + [Event(x, false)], id) == (open - multiset{x})[id] {
      DepthAppend(events, Event(x, false), id);
    }
  }

  // ----- The shared counter -----

  /** One locked update: count up or down, and forget an id that reaches zero. */
  function Bump(counts: map<Id, int>, e: Event): map<Id, int> {
    var count := (if e.sub in counts then counts[e.sub] else 0) + if e.active then 1 else -1;
    if count > 0 then counts[e.sub := count] else map k | k in counts && k != e.sub :: counts[k]
  }

  function Counts(events: seq<Event>): map<Id, int> {
    if events == [] then map[] else Bump(Counts(events[..|events| - 1]), events[|events| - 1])
  }

  /** The callback of one run, with the ids it publishes. */
  class Counter {
    var counts: map<Id, int>
    var activeIds: set<Id>
    ghost var history: seq<Event>

    ghost predicate Valid()
      reads this
    {
      counts == Counts(history) && activeIds == counts.Keys
    }

    constructor ()
      ensures Valid() && history == []
    {
      counts, activeIds, history := map[], {}, [];
    }

    method Notify(sub: Id, active: bool)
      requires Valid()
      modifies this
      ensures Valid() && history == old(history) + [Event(sub, active)]
    {
      var count := (if sub in counts then counts[sub] else 0) + if active then 1 else -1;
      if count > 0 {
        counts := counts[sub := count];
      } else {
        counts := map k | k in counts && k != sub :: counts[k];
      }
      activeIds := counts.Keys;
      history := history + [Event(sub, active)];
      assert history[..|history| - 1] == old(history);
    }
  }

  /** On a bracketed history the counter is exact and its clamp at zero never cuts anything off. */
  lemma {:induction false} CounterIsExact(events: seq<Event>)
    requires Bracketed(events)
    ensures forall id :: id in Counts(events) <==> Depth(events, id) > 0
    ensures forall id | id in Counts(events) :: Counts(events)[id] == Depth(events, id)
  {
    if events != [] {
      var front, e := events[..|events| - 1], events[|events| - 1];
      assert forall k | 0 <= k <= |front| :: front[..k] == events[..k];
      CounterIsExact(front);
      assert events[..|events|] == events;
      forall id ensures Depth(events, id) >= 0 {
        assert Depth(events[..|events|], id) >= 0;
      }
    }
  }

  // ----- Interleaved callers -----

  datatype Call = Call(caller: nat, event: Event)

  function Events(calls: seq<Call>): seq<Event> {
    if calls == [] then [] else Events(calls[..|calls| - 1]) + [calls[|calls| - 1].event]
  }

  /** What one caller emitted. */
  function By(calls: seq<Call>, caller: nat): seq<Event> {
    if calls == [] then []
    else
      var c := calls[|calls| - 1];
      if c.caller == caller then By(calls[..|calls| - 1], caller) + [c.event] else By(calls[..|calls| - 1], caller)
  }

  /** Open brackets of callers below n, added up. */
  function OpenBelow(calls: seq<Call>, n: nat, id: Id): int {
    if n == 0 then 0 else OpenBelow(calls, n - 1, id) + Depth(By(calls, n - 1), id)
  }

  ghost predicate EachBracketed(calls: seq<Call>, n: nat) {
    && (forall i | 0 <= i < |calls| :: calls[i].caller < n)
    && (forall c | 0 <= c < n :: Bracketed(By(calls, c)))
  }

  lemma ByAppend(calls: seq<Call>, c: Call, caller: nat)
    ensures By(calls + [c], caller) == if c.caller == caller then By(calls, caller) + [c.event] else By(calls, caller)
  {
    assert (calls + [c])[..|calls|] == calls;
  }

  lemma {:induction false} OpenBelowStep(calls: seq<Call>, c: Call, n: nat, id: Id)
    ensures OpenBelow(calls + [c], n, id)
            == OpenBelow(calls, n, id)
               + if c.caller >= n || c.event.sub != id then 0 else if c.event.active then 1 else -1
  {
    if n > 0 {
      OpenBelowStep(calls, c, n - 1, id);
      ByAppend(calls, c, n - 1);
      DepthAppend(By(calls, n - 1), c.event, id);
      hide By, Depth;
    }
  }

  lemma {:induction false} TotalIsSum(calls: seq<Call>, n: nat, id: Id)
    requires forall i | 0 <= i < |calls| :: calls[i].caller < n
    ensures Depth(Events(calls), id) == OpenBelow(calls, n, id)
    decreases |calls|
  {
    if calls == [] {
      NothingOpen(n, id);
    } else {
      var front, c := calls[..|calls| - 1], calls[|calls| - 1];
      TotalIsSum(front, n, id);
      assert front + [c] == calls;
      OpenBelowStep(front, c, n, id);
      DepthAppend(Events(front), c.event, id);
    }
  }

  lemma {:induction false} NothingOpen(n: nat, id: Id)
    ensures OpenBelow([], n, id) == 0
  {
    if n > 0 {
      NothingOpen(n - 1, id);
    }
  }

  lemma {:induction false} SumOfOpen(calls: seq<Call>, n: nat, id: Id)
    requires forall c | 0 <= c < n :: Depth(By(calls, c), id) >= 0
    ensures OpenBelow(calls, n, id) >= 0
    ensures OpenBelow(calls, n, id) > 0 <==> SomeoneInside(calls, n, id)
  {
    hide By, Depth;
    if n > 0 {
      SumOfOpen(calls, n - 1, id);
      if SomeoneInside(calls, n - 1, id) {
        var c :| 0 <= c < n - 1 && Depth(By(calls, c), id) > 0;
        assert SomeoneInside(calls, n, id);
      } else if Depth(By(calls, n - 1), id) > 0 {
        assert SomeoneInside(calls, n, id);
      }
    }
  }

  /** Some caller has an open bracket around this sub-node. */
  ghost predicate SomeoneInside(calls: seq<Call>, n: nat, id: Id) {
    exists c :: 0 <= c < n && Depth(By(calls, c), id) > 0
  }

  lemma BracketedNow(events: seq<Event>, id: Id)
    requires Bracketed(events)
    ensures Depth(events, id) >= 0
  {
    assert events[..|events|] == events;
  }

  lemma EarlierBracketed(calls: seq<Call>, n: nat)
    requires calls != [] && EachBracketed(calls, n)
    ensures EachBracketed(calls[..|calls| - 1], n)
  {
    var front, last := calls[..|calls| - 1], calls[|calls| - 1];
    forall c | 0 <= c < n ensures Bracketed(By(front, c)) {
      assert Bracketed(By(calls, c));
      if last.caller == c {
        BeginningIsBracketed(By(calls, c), By(front, c));
      }
    }
  }

  /** Any interleaving of bracketed callers is itself bracketed. */
  lemma {:induction false} InterleavingBracketed(calls: seq<Call>, n: nat)
    requires EachBracketed(calls, n)
    ensures Bracketed(Events(calls))
    decreases |calls|
  {
    if calls != [] {
      var front, last := calls[..|calls| - 1], calls[|calls| - 1];
      EarlierBracketed(calls, n);
      InterleavingBracketed(front, n);
      var id := last.event.sub;
      if !last.event.active {
        TotalIsSum(calls, n, id);
        forall c | 0 <= c < n ensures Depth(By(calls, c), id) >= 0 {
          BracketedNow(By(calls, c), id);
        }
        SumOfOpen(calls, n, id);
        DepthAppend(Events(front), last.event, id);
      }
      BracketedAppend(Events(front), last.event);
    }
  }

  /** For every interleaving of any number of callers that bracket their activity, the counter shows
      exactly the ids with an open bracket, and it is empty once every bracket is closed. */
  lemma CounterShowsOpen(calls: seq<Call>, n: nat)
    requires EachBracketed(calls, n)
    ensures forall id :: id in Counts(Events(calls)) <==> SomeoneInside(calls, n, id)
    ensures (forall c | 0 <= c < n :: Opens(By(calls, c), multiset{})) ==> Counts(Events(calls)) == map[]
  {
    InterleavingBracketed(calls, n);
    CounterIsExact(Events(calls));
    forall id ensures id in Counts(Events(calls)) <==> SomeoneInside(calls, n, id) {
      TotalIsSum(calls, n, id);
      forall c | 0 <= c < n ensures Depth(By(calls, c), id) >= 0 {
        BracketedNow(By(calls, c), id);
      }
      SumOfOpen(calls, n, id);
    }
    if forall c | 0 <= c < n :: Opens(By(calls, c), multiset{}) {
      forall id ensures !SomeoneInside(calls, n, id) {
        assert forall c | 0 <= c < n :: Depth(By(calls, c), id) == 0;
      }
      assert Counts(Events(calls)).Keys == {};
    }
  }

  /** Every single update of such an interleaving finds the count it is about to lower above zero. */
  lemma ClampNeverCuts(calls: seq<Call>, n: nat)
    requires calls != [] && EachBracketed(calls, n) && !calls[|calls| - 1].event.active
    ensures var before, id := Counts(Events(calls[..|calls| - 1])), calls[|calls| - 1].event.sub;
            id in before && before[id] > 0
  {
    var front, last := calls[..|calls| - 1], calls[|calls| - 1];
    EarlierBracketed(calls, n);
    InterleavingBracketed(front, n);
    CounterIsExact(Events(front));
    InterleavingBracketed(calls, n);
    BracketedNow(Events(calls), last.event.sub);
    DepthAppend(Events(front), last.event, last.event.sub);
  }
}
