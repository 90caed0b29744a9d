/** Layered layout of the canvas (frontend/src/graph/layout.ts). */
module Layout {
  import opened Digraph
  import Topo

  const X_SPACING := 220
  const Y_SPACING := 110
  const X_OFFSET := 60
  const Y_OFFSET := 80

  datatype Position = Position(x: int, y: int)

  ghost predicate WalkOfLength(ids: set<Id>, arcs: seq<Arc>, n: Id, len: int) {
    len >= 0 && exists w :: WalkTo(ids, arcs, w, n) && |w| == len + 1
  }

  /** len is the number of arcs on some walk to n, and no walk to n has more. */
  ghost predicate LongestWalk(ids: set<Id>, arcs: seq<Arc>, n: Id, len: int) {
    WalkOfLength(ids, arcs, n, len) && forall w | WalkTo(ids, arcs, w, n) :: |w| <= len + 1
  }

  /** Levels so far: each is the length of a walk, and each arc already followed has been
      respected. `todo` are the arcs of `last` that are still to be followed. */
  ghost predicate LevelInv(ids: set<Id>, arcs: seq<Arc>, done: set<Id>, queue: set<Id>,
                           level: map<Id, int>, last: Id, todo: seq<Id>) {
    && done + queue <= level.Keys <= ids
    && (forall n | n in level :: WalkOfLength(ids, arcs, n, level[n]))
    && (forall u, v {:trigger Joined(ids, arcs, u, v)} | u in done && Joined(ids, arcs, u, v)
        && !(u == last && v in todo) ::
          v in level && level[u] + 1 <= level[v])
  }

  /** The state of the layering loop: `queue[..head]` is finished, `todo` are the arcs of the
      id before `head` that are still to be followed. */
  ghost predicate LayeringInv(ids: set<Id>, arcs: seq<Arc>, rank: map<Id, nat>, queue: seq<Id>, head: nat,
                              remaining: map<Id, int>, level: map<Id, int>, last: Id, todo: seq<Id>) {
    && head <= |queue| && Distinct(queue) && Topo.Numbers(rank, queue[..head])
    && KahnInv(ids, arcs, rank, head, Elements(queue[head..]), remaining, todo)
    && LevelInv(ids, arcs, rank.Keys, Elements(queue[head..]), level, last, todo)
    && (todo != [] ==> last in rank && forall m | m in todo :: Joined(ids, arcs, last, m))
  }

  /** The layered levels; an id on or behind a cycle keeps what its finished predecessors gave it. */
  method ComputeLevels(ids: seq<Id>, arcs: seq<Arc>) returns (level: map<Id, int>)
    requires Distinct(ids)
    ensures level.Keys == Elements(ids)
    ensures Acyclic(Elements(ids), arcs) ==>
              forall n | n in ids :: LongestWalk(Elements(ids), arcs, n, level[n])
  {
    hide LayeringInv, LongestWalk, OnOrAfterCycle;
    ghost var vertices := Elements(ids);
    var adjacency, remaining := Topo.CountArcs(Elements(ids), arcs);
    var queue := Topo.Sources(ids, remaining);
    level := map n | n in queue :: 0;
    ghost var rank: map<Id, nat> := map[];
    ghost var last := "";
    LayeringStart(vertices, arcs, queue, remaining, level, last);
    var head := 0;
    while head < |queue|
      invariant LayeringInv(vertices, arcs, rank, queue, head, remaining, level, last, [])
      decreases |ids| - head
    {
      rank := LayeringPop(vertices, arcs, rank, queue, head, remaining, level, last);
      last := queue[head];
      var current := queue[head];
      head := head + 1;
      LayeringFits(ids, arcs, rank, queue, head, remaining, level, current);
      var targets := adjacency[current];
      assert targets[0..] == targets;
      for j := 0 to |targets|
        invariant LayeringInv(vertices, arcs, rank, queue, head, remaining, level, current, targets[j..])
      {
        var next := targets[j];
        assert targets[j..][0] == next && targets[j..][1..] == targets[j + 1..];
        LayeringStep(vertices, arcs, rank, queue, head, remaining, level, current, targets[j..]);
        level := level[next := Max(if next in level then level[next] else 0, level[current] + 1)];
        remaining := remaining[next := remaining[next] - 1];
        if remaining[next] <= 0 && next !in queue {
          queue := queue + [next];
        }
      }
      assert targets[|targets|..] == [];
    }
    LayeringDone(vertices, arcs, rank, queue, head, remaining, level, last);
    level := map n | n in Elements(ids) :: if n in level then level[n] else 0;
  }

  lemma LayeringStart(ids: set<Id>, arcs: seq<Arc>, queue: seq<Id>, remaining: map<Id, int>, level: map<Id, int>,
                      last: Id)
    requires Distinct(queue) && remaining.Keys == ids
    requires Elements(queue) == set m | m in ids && remaining[m] == 0
    requires forall n | n in ids :: remaining[n] == InCount(ids, arcs, |arcs|, n, {})
    requires level == map n | n in queue :: 0
    ensures LayeringInv(ids, arcs, map[], queue, 0, remaining, level, last, [])
  {
    KahnStart(ids, arcs, Elements(queue), remaining);
    assert queue[..0] == [] && queue[0..] == queue;
    assert level.Keys == Elements(queue);
    forall n | n in level ensures WalkOfLength(ids, arcs, n, level[n]) {
      assert WalkTo(ids, arcs, [n], n);
    }
  }

  lemma LayeringPop(ids: set<Id>, arcs: seq<Arc>, rank: map<Id, nat>, queue: seq<Id>, head: nat,
                    remaining: map<Id, int>, level: map<Id, int>, last: Id) returns (rank': map<Id, nat>)
    requires head < |queue| && LayeringInv(ids, arcs, rank, queue, head, remaining, level, last, [])
    ensures queue[head] in ids
    ensures LayeringInv(ids, arcs, rank', queue, head + 1, remaining, level, queue[head],
                        Targets(ids, arcs, |arcs|, queue[head]))
  {
    rank' := Advance(ids, arcs, rank, queue, head, remaining);
    var n := queue[head];
    assert n in queue[head..];
    TargetsAreJoined(ids, arcs, n);
    LevelPop(ids, arcs, rank.Keys, Elements(queue[head..]), level, last, n);
    assert rank'.Keys == rank.Keys + {n};
  }

  lemma LevelPop(ids: set<Id>, arcs: seq<Arc>, done: set<Id>, queue: set<Id>, level: map<Id, int>, last: Id, n: Id)
    requires n in queue && n !in done && LevelInv(ids, arcs, done, queue, level, last, [])
    ensures LevelInv(ids, arcs, done + {n}, queue - {n}, level, n, Targets(ids, arcs, |arcs|, n))
  {
    TargetsAreJoined(ids, arcs, n);
  }

  lemma LayeringFits(ids: seq<Id>, arcs: seq<Arc>, rank: map<Id, nat>, queue: seq<Id>, head: nat,
                     remaining: map<Id, int>, level: map<Id, int>, last: Id)
    requires LayeringInv(Elements(ids), arcs, rank, queue, head, remaining, level, last,
                         Targets(Elements(ids), arcs, |arcs|, last))
    ensures head <= |ids|
  {
    Topo.OrderFits(rank, queue[..head], ids);
  }

  lemma LayeringStep(ids: set<Id>, arcs: seq<Arc>, rank: map<Id, nat>, queue: seq<Id>, head: nat,
                     remaining: map<Id, int>, level: map<Id, int>, last: Id, todo: seq<Id>)
    requires todo != [] && LayeringInv(ids, arcs, rank, queue, head, remaining, level, last, todo)
    ensures var m := todo[0];
            && last in level && m in remaining && head <= |queue|
            && (remaining[m] <= 1 && m !in queue <==> remaining[m] == 1)
            && LayeringInv(ids, arcs, rank, if remaining[m] == 1 then queue + [m] else queue, head,
                           remaining[m := remaining[m] - 1],
                           level[m := Max(if m in level then level[m] else 0, level[last] + 1)], last, todo[1..])
  {
    var m := todo[0];
    assert m in todo;
    KahnDiscount(ids, arcs, rank, head, Elements(queue[head..]), remaining, todo);
    QueueParts(queue, head, rank, m);
    LevelStep(ids, arcs, rank.Keys, Elements(queue[head..]), level, last, todo, remaining[m] == 1);
    assert forall x :: x in todo[1..] ==> x in todo;
  }

  lemma LayeringDone(ids: set<Id>, arcs: seq<Arc>, rank: map<Id, nat>, queue: seq<Id>, head: nat,
                     remaining: map<Id, int>, level: map<Id, int>, last: Id)
    requires head >= |queue| && LayeringInv(ids, arcs, rank, queue, head, remaining, level, last, [])
    ensures Acyclic(ids, arcs) ==> forall n | n in ids :: n in level && LongestWalk(ids, arcs, n, level[n])
  {
    assert queue[head..] == [];
    assert Elements(queue[head..]) == {};
    KahnDone(ids, arcs, rank, head, remaining);
    if Acyclic(ids, arcs) {
      forall n | n in ids ensures n in level && LongestWalk(ids, arcs, n, level[n]) {
        assert n in rank;
        LevelsAreLongest(ids, arcs, level, n);
      }
    }
  }

  lemma Advance(ids: set<Id>, arcs: seq<Arc>, rank: map<Id, nat>, queue: seq<Id>, head: nat, indegree: map<Id, int>)
    returns (rank': map<Id, nat>)
    requires head < |queue| && Distinct(queue) && Topo.Numbers(rank, queue[..head])
    requires KahnInv(ids, arcs, rank, head, Elements(queue[head..]), indegree, [])
    ensures rank' == rank[queue[head] := head] && Topo.Numbers(rank', queue[..head + 1])
    ensures Elements(queue[head + 1..]) == Elements(queue[head..]) - {queue[head]}
    ensures KahnInv(ids, arcs, rank', head + 1, Elements(queue[head + 1..]), indegree,
                    Targets(ids, arcs, |arcs|, queue[head]))
  {
    var n := queue[head];
    assert queue[head..][0] == n && queue[head..][1..] == queue[head + 1..];
    assert queue[..head] + [n] == queue[..head + 1];
    KahnPop(ids, arcs, rank, head, Elements(queue[head..]), indegree, n);
    ElementsFirst(queue[head..]);
    Topo.NumbersAppend(rank, queue[..head], n);
    rank' := rank[n := head];
  }

  lemma QueueParts(queue: seq<Id>, head: nat, rank: map<Id, nat>, next: Id)
    requires head <= |queue| && Topo.Numbers(rank, queue[..head])
    ensures next in queue <==> next in rank || next in Elements(queue[head..])
    ensures (queue + [next])[..head] == queue[..head]
    ensures Elements((queue + [next])[head..]) == Elements(queue[head..]) + {next}
  {
    assert queue == queue[..head] + queue[head..];
    assert (queue + [next])[head..] == queue[head..] + [next];
    ElementsAppend(queue[head..], next);
    assert next in queue[..head] <==> next in Elements(queue[..head]);
  }

  function Max(a: int, b: int): int {
    if a < b then b else a
  }

  /** Following one arc keeps the levels right, whether or not its target became ready. */
  lemma LevelStep(ids: set<Id>, arcs: seq<Arc>, done: set<Id>, queue: set<Id>, level: map<Id, int>,
                  last: Id, todo: seq<Id>, ready: bool)
    requires last in done && todo != [] && todo[0] !in done
    requires LevelInv(ids, arcs, done, queue, level, last, todo)
    requires Joined(ids, arcs, last, todo[0])
    ensures var m := todo[0];
            var l := Max(if m in level then level[m] else 0, level[last] + 1);
            LevelInv(ids, arcs, done, if ready then queue + {m} else queue, level[m := l], last, todo[1..])
  {
    var m := todo[0];
    var w :| WalkTo(ids, arcs, w, last) && |w| == level[last] + 1;
    assert WalkTo(ids, arcs, w + [m], m);
    assert forall x :: x in todo <==> x == m || x in todo[1..];
  }

  lemma {:induction false} WalkBound(ids: set<Id>, arcs: seq<Arc>, level: map<Id, int>, w: seq<Id>)
    requires Walk(ids, arcs, w) && w[|w| - 1] in level
    requires forall n | n in level :: level[n] >= 0
    requires forall u, v {:trigger Joined(ids, arcs, u, v)} | Joined(ids, arcs, u, v) ::
               u in level && v in level && level[u] + 1 <= level[v]
    ensures |w| <= level[w[|w| - 1]] + 1
    decreases |w|
  {
    if |w| > 1 {
      assert Joined(ids, arcs, w[|w| - 2], w[|w| - 1]);
      WalkBound(ids, arcs, level, w[..|w| - 1]);
    }
  }

  lemma LevelsAreLongest(ids: set<Id>, arcs: seq<Arc>, level: map<Id, int>, n: Id)
    requires n in level && forall m | m in level :: WalkOfLength(ids, arcs, m, level[m])
    requires forall u, v {:trigger Joined(ids, arcs, u, v)} | Joined(ids, arcs, u, v) ::
               u in level && v in level && level[u] + 1 <= level[v]
    ensures LongestWalk(ids, arcs, n, level[n])
  {
    forall w | WalkTo(ids, arcs, w, n) ensures |w| <= level[n] + 1 {
      forall m | m in level ensures level[m] >= 0 {
        assert WalkOfLength(ids, arcs, m, level[m]);
      }
      WalkBound(ids, arcs, level, w);
    }
  }

  /** x is the column of the longest walk to n. */
  ghost predicate InColumn(ids: seq<Id>, arcs: seq<Arc>, n: Id, x: int) {
    exists len :: LongestWalk(Elements(ids), arcs, n, len) && x == X_OFFSET + len * X_SPACING
  }

  /** Two ids never share a position; in an acyclic graph the column of an id is the length of
      the longest walk to it, so every arc points at least one column to the right. */
  method ComputeLayout(ids: seq<Id>, arcs: seq<Arc>) returns (positions: map<Id, Position>)
    requires Distinct(ids)
    ensures positions.Keys == Elements(ids)
    ensures forall a, b | a in ids && b in ids && a != b :: positions[a] != positions[b]
    ensures Acyclic(Elements(ids), arcs) ==> forall n | n in ids :: InColumn(ids, arcs, n, positions[n].x)
  {
    hide InColumn, Acyclic, LongestWalk, InRow, CountAt, Distinct;
    var level := ComputeLevels(ids, arcs);
    positions := PlaceAll(ids, level);
    if Acyclic(Elements(ids), arcs) {
      forall n | n in ids ensures InColumn(ids, arcs, n, positions[n].x) {
        PlacedInColumn(ids, arcs, n, level[n]);
      }
    }
  }

  lemma PlacedInColumn(ids: seq<Id>, arcs: seq<Arc>, n: Id, lvl: int)
    requires LongestWalk(Elements(ids), arcs, n, lvl)
    ensures InColumn(ids, arcs, n, X_OFFSET + lvl * X_SPACING)
  {
  }

  /** How many of the first i ids have this level. */
  function CountAt(ids: seq<Id>, level: map<Id, int>, i: nat, lvl: int): nat
    requires i <= |ids| && level.Keys == Elements(ids)
  {
    if i == 0 then 0
    else CountAt(ids, level, i - 1, lvl) + if level[ids[i - 1]] == lvl then 1 else 0
  }

  /** The row of the i-th id is the number of earlier ids in its column. */
  ghost predicate InRow(ids: seq<Id>, level: map<Id, int>, i: nat, y: int)
    requires i < |ids| && level.Keys == Elements(ids)
  {
    y == Y_OFFSET + CountAt(ids, level, i, level[ids[i]]) * Y_SPACING
  }

  /** One column per level, filled from the top in the order of the node list. */
  method PlaceAll(ids: seq<Id>, level: map<Id, int>) returns (positions: map<Id, Position>)
    requires Distinct(ids) && level.Keys == Elements(ids)
    ensures positions.Keys == Elements(ids)
    ensures forall a, b | a in ids && b in ids && a != b :: positions[a] != positions[b]
    ensures forall a | a in ids :: positions[a].x == X_OFFSET + level[a] * X_SPACING
    ensures forall i | 0 <= i < |ids| :: InRow(ids, level, i, positions[ids[i]].y)
  {
    hide Placed, Distinct, CountAt, InRow;
    var countPerLevel: map<int, int> := map[];
    positions := map[];
    NothingPlaced(level);
    NothingCounted(ids, level);
    for i := 0 to |ids|
      invariant positions.Keys == Elements(ids[..i])
      invariant Placed(level, countPerLevel, positions)
      invariant Counted(ids, level, i, countPerLevel)
      invariant forall k | 0 <= k < i :: ids[k] in positions && InRow(ids, level, k, positions[ids[k]].y)
    {
      var id := ids[i];
      var lvl := level[id];
      var idx := if lvl in countPerLevel then countPerLevel[lvl] else 0;
      NextId(ids, i);
      CountNext(ids, level, i, countPerLevel);
      forall k | 0 <= k < i ensures ids[k] != id {
        EarlierId(ids, k, i);
      }
      PlaceNext(level, countPerLevel, positions, id, idx);
      countPerLevel := countPerLevel[lvl := idx + 1];
      positions := positions[id := Position(X_OFFSET + lvl * X_SPACING, Y_OFFSET + idx * Y_SPACING)];
    }
    assert ids[..|ids|] == ids;
    PlacedMeans(level, countPerLevel, positions);
  }

  ghost predicate Counted(ids: seq<Id>, level: map<Id, int>, i: nat, countPerLevel: map<int, int>)
    requires i <= |ids| && level.Keys == Elements(ids)
  {
    forall lvl :: (if lvl in countPerLevel then countPerLevel[lvl] else 0) == CountAt(ids, level, i, lvl)
  }

  lemma NothingCounted(ids: seq<Id>, level: map<Id, int>)
    requires level.Keys == Elements(ids)
    ensures Counted(ids, level, 0, map[])
  {
  }

  lemma CountNext(ids: seq<Id>, level: map<Id, int>, i: nat, countPerLevel: map<int, int>)
    requires i < |ids| && level.Keys == Elements(ids) && Counted(ids, level, i, countPerLevel)
    ensures var lvl := level[ids[i]];
            var idx := if lvl in countPerLevel then countPerLevel[lvl] else 0;
            Counted(ids, level, i + 1, countPerLevel[lvl := idx + 1])
              && InRow(ids, level, i, Y_OFFSET + idx * Y_SPACING)
  {
  }

  lemma EarlierId(ids: seq<Id>, k: nat, i: nat)
    requires Distinct(ids) && k < i < |ids|
    ensures ids[k] != ids[i]
  {
  }

  lemma NothingPlaced(level: map<Id, int>)
    ensures Placed(level, map[], map[])
  {
  }

  lemma NextId(ids: seq<Id>, i: nat)
    requires Distinct(ids) && i < |ids|
    ensures ids[i] !in Elements(ids[..i]) && Elements(ids[..i + 1]) == Elements(ids[..i]) + {ids[i]}
  {
    assert ids[..i + 1] == ids[..i] + [ids[i]];
    ElementsAppend(ids[..i], ids[i]);
  }

  lemma PlacedMeans(level: map<Id, int>, countPerLevel: map<int, int>, positions: map<Id, Position>)
    requires Placed(level, countPerLevel, positions)
    ensures forall a | a in positions :: a in level && positions[a].x == X_OFFSET + level[a] * X_SPACING
    ensures forall a, b | a in positions && b in positions && a != b :: positions[a] != positions[b]
  {
  }

  lemma PlaceNext(level: map<Id, int>, countPerLevel: map<int, int>, positions: map<Id, Position>, id: Id, idx: int)
    requires Placed(level, countPerLevel, positions) && id in level && id !in positions
    requires idx == if level[id] in countPerLevel then countPerLevel[level[id]] else 0
    ensures Placed(level, countPerLevel[level[id] := idx + 1],
                   positions[id := Position(X_OFFSET + level[id] * X_SPACING, Y_OFFSET + idx * Y_SPACING)])
  {
    var placed := positions[id := Position(X_OFFSET + level[id] * X_SPACING, Y_OFFSET + idx * Y_SPACING)];
    forall a | a in positions ensures placed[a] != placed[id] {
      assert positions[a].y < Y_OFFSET + countPerLevel[level[a]] * Y_SPACING;
    }
  }

  /** Every position is in the column of its level, above the next free row, and shared by nobody. */
  ghost predicate Placed(level: map<Id, int>, countPerLevel: map<int, int>, positions: map<Id, Position>) {
    && positions.Keys <= level.Keys
    && (forall a {:trigger positions[a]} | a in positions ::
          && positions[a].x == X_OFFSET + level[a] * X_SPACING
          && level[a] in countPerLevel
          && positions[a].y < Y_OFFSET + countPerLevel[level[a]] * Y_SPACING)
    && (forall a, b {:trigger positions[a], positions[b]} | a in positions && b in positions && a != b ::
          positions[a] != positions[b])
  }

  /** Longest-walk columns make every arc point at least one column to the right. */
  lemma ArcsGoRight(ids: seq<Id>, arcs: seq<Arc>, u: Id, v: Id, xu: int, xv: int)
    requires Joined(Elements(ids), arcs, u, v)
    requires InColumn(ids, arcs, u, xu) && InColumn(ids, arcs, v, xv)
    ensures xu + X_SPACING <= xv
  {
    var lenU :| LongestWalk(Elements(ids), arcs, u, lenU) && xu == X_OFFSET + lenU * X_SPACING;
    var w :| WalkTo(Elements(ids), arcs, w, u) && |w| == lenU + 1;
    assert WalkTo(Elements(ids), arcs, w + [v], v);
  }
}
