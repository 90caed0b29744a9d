/** Topological sorting of node ids (backend/schema/topo.py). */
module Topo {
  import opened Digraph

  /** The queue of `kahn_order` before its loop: ids nobody points at, in list order. */
  function Sources(ids: seq<Id>, indegree: map<Id, int>): (r: seq<Id>)
    requires Elements(ids) <= indegree.Keys
    ensures Elements(r) == set m | m in Elements(ids) && indegree[m] == 0
    ensures Distinct(ids) ==> Distinct(r)
  {
    if ids == [] then []
    else
      assert ids == [ids[0]] + ids[1..];
      var rest := Sources(ids[1..], indegree);
      assert forall m :: m in rest <==> m in Elements(rest);
      if indegree[ids[0]] == 0 then
        assert Distinct(ids) ==> Distinct([ids[0]] + rest) by {
          if Distinct(ids) { DistinctCons(ids[0], rest); }
        }
        [ids[0]] + rest
      else rest
  }

  /** Adjacency lists and in-degrees of the retained arcs. */
  method CountArcs(ids: set<Id>, arcs: seq<Arc>)
    returns (adjacency: map<Id, seq<Id>>, indegree: map<Id, int>)
    ensures adjacency.Keys == ids && indegree.Keys == ids
    ensures forall n | n in ids :: adjacency[n] == Targets(ids, arcs, |arcs|, n)
    ensures forall n | n in ids :: indegree[n] == InCount(ids, arcs, |arcs|, n, {})
  {
    adjacency := map n | n in ids :: [];
    indegree := map n | n in ids :: 0;
    for i := 0 to |arcs|
      invariant adjacency.Keys == ids && indegree.Keys == ids
      invariant forall n | n in ids :: adjacency[n] == Targets(ids, arcs, i, n)
      invariant forall n | n in ids :: indegree[n] == InCount(ids, arcs, i, n, {})
    {
      var a := arcs[i];
      if a.src !in adjacency || a.dst !in indegree {
        continue;
      }
      adjacency := adjacency[a.src := adjacency[a.src] + [a.dst]];
      indegree := indegree[a.dst := indegree[a.dst] + 1];
    }
  }

  /** The numbering that a list gives to its members. */
  ghost predicate Numbers(rank: map<Id, nat>, order: seq<Id>) {
    && rank.Keys == Elements(order)
    && forall i | 0 <= i < |order| :: order[i] in rank && rank[order[i]] == i
  }

  lemma NumbersAppend(rank: map<Id, nat>, order: seq<Id>, n: Id)
    requires Numbers(rank, order) && n !in rank
    ensures Numbers(rank[n := |order|], order + [n])
  {
    ElementsAppend(order, n);
    forall i | 0 <= i < |order + [n]|
      ensures (order + [n])[i] in rank[n := |order|] && rank[n := |order|][(order + [n])[i]] == i
    {
      if i < |order| {
        assert (order + [n])[i] == order[i] && order[i] in rank;
      }
    }
  }

  lemma NumberedIsDistinct(rank: map<Id, nat>, order: seq<Id>)
    requires Numbers(rank, order)
    ensures Distinct(order) && rank.Keys == Elements(order)
  {
    forall i, j | 0 <= i < j < |order| ensures order[i] != order[j] {
      assert rank[order[i]] == i && rank[order[j]] == j;
    }
  }

  /** `order` and `remaining` split the ids; every retained arc into `order` starts earlier in
      `order`; `remaining` holds exactly the ids on a cycle or reachable from one. */
  method KahnOrder(ids: seq<Id>, arcs: seq<Arc>)
    returns (order: seq<Id>, remaining: seq<Id>, ghost rank: map<Id, nat>)
    requires Distinct(ids)
    ensures Numbers(rank, order) && Distinct(order) && Elements(order) <= Elements(ids)
    ensures remaining == Without(ids, Elements(order))
    ensures Climbs(Elements(ids), arcs, rank)
    ensures forall n | n in ids :: n in remaining <==> OnOrAfterCycle(Elements(ids), arcs, n)
  {
    hide KahnInv, Climbs, OnOrAfterCycle, Numbers;
    ghost var vertices := Elements(ids);
    var adjacency, indegree := CountArcs(Elements(ids), arcs);
    var queue := Sources(ids, indegree);
    order := [];
    rank := map[];
    KahnStart(vertices, arcs, Elements(queue), indegree);
    NumbersNothing();
    while queue != []
      invariant Distinct(queue) && Numbers(rank, order)
      invariant KahnInv(vertices, arcs, rank, |order|, Elements(queue), indegree, [])
      decreases |ids| - |order|
    {
      var n := queue[0];
      KahnPop(vertices, arcs, rank, |order|, Elements(queue), indegree, n);
      ElementsFirst(queue);
      NumbersAppend(rank, order, n);
      rank := rank[n := |order|];
      queue := queue[1..];
      order := order + [n];
      KahnRanksIds(vertices, arcs, rank, |order|, Elements(queue), indegree, Targets(vertices, arcs, |arcs|, n));
      OrderFits(rank, order, ids);
      var targets := adjacency[n];
      assert targets[0..] == targets;
      for j := 0 to |targets|
        invariant Distinct(queue)
        invariant KahnInv(vertices, arcs, rank, |order|, Elements(queue), indegree, targets[j..])
      {
        var m := targets[j];
        assert targets[j..][0] == m && targets[j..][1..] == targets[j + 1..];
        KahnDiscount(vertices, arcs, rank, |order|, Elements(queue), indegree, targets[j..]);
        ElementsAppend(queue, m);
        DistinctAppend(queue, m);
        indegree := indegree[m := indegree[m] - 1];
        if indegree[m] == 0 {
          queue := queue + [m];
        }
      }
      assert targets[|targets|..] == [];
    }
    assert Elements(queue) == {};
    KahnDone(vertices, arcs, rank, |order|, indegree);
    NumberedIsDistinct(rank, order);
    remaining := Without(ids, Elements(order));
  }

  lemma NumbersNothing()
    ensures Numbers(map[], [])
  {
  }

  lemma KahnRanksIds(ids: set<Id>, arcs: seq<Arc>, rank: map<Id, nat>, next: nat, queue: set<Id>,
                     indegree: map<Id, int>, todo: seq<Id>)
    requires KahnInv(ids, arcs, rank, next, queue, indegree, todo)
    ensures rank.Keys <= ids
  {
  }

  lemma OrderFits(rank: map<Id, nat>, order: seq<Id>, ids: seq<Id>)
    requires Numbers(rank, order) && rank.Keys <= Elements(ids)
    ensures |order| <= |ids|
  {
    NumberedIsDistinct(rank, order);
    DistinctFits(order, Elements(ids));
    ElementsSize(ids);
  }
}
