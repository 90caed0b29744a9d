/** Finite directed multigraphs given by a list of vertex ids and a list of arcs.

An arc counts only when both ends are listed. Walks, closed walks and the theory of
Kahn's algorithm live here, because the cycle check of the validator and the layout of
the canvas run the same counting scheme.
*/
module Digraph {

  type Id = string
  datatype Arc = Arc(src: Id, dst: Id)

  predicate Distinct<T(==)>(s: seq<T>) {
    forall i, j | 0 <= i < j < |s| :: s[i] != s[j]
  }

  function Elements<T(==)>(s: seq<T>): set<T> {
    set x | x in s
  }

  lemma ElementsAppend<T>(s: seq<T>, x: T)
    ensures Elements(s + [x]) == Elements(s) + {x}
  {
  }

  lemma DistinctCons<T>(x: T, s: seq<T>)
    requires Distinct(s) && x !in s
    ensures Distinct([x] + s)
  {
    forall i, j | 0 <= i < j < |[x] + s| ensures ([x] + s)[i] != ([x] + s)[j] {
      assert ([x] + s)[j] == s[j - 1];
      assert i > 0 ==> ([x] + s)[i] == s[i - 1];
    }
  }

  lemma DistinctAppend<T>(s: seq<T>, x: T)
    requires Distinct(s) && x !in s
    ensures Distinct(s + [x])
  {
  }

  lemma ElementsFirst<T>(s: seq<T>)
    requires s != [] && Distinct(s)
    ensures Elements(s[1..]) == Elements(s) - {s[0]}
    ensures Distinct(s[1..])
  {
    forall x ensures x in s[1..] <==> x in s && x != s[0] {
      if x in s && x != s[0] {
        var i :| 0 <= i < |s| && s[i] == x;
        assert s[1..][i - 1] == x;
      }
    }
  }

  /** The members of s outside `gone`, in order. */
  function Without<T(==,!new)>(s: seq<T>, gone: set<T>): (r: seq<T>)
    ensures forall x :: x in r <==> x in s && x !in gone
  {
    if s == [] then []
    else if s[0] in gone then Without(s[1..], gone)
    else [s[0]] + Without(s[1..], gone)
  }

  lemma {:induction false} WithoutDistinct<T(!new)>(s: seq<T>, gone: set<T>)
    requires Distinct(s)
    ensures Distinct(Without(s, gone))
  {
    if s != [] {
      WithoutDistinct(s[1..], gone);
      if s[0] !in gone {
        DistinctCons(s[0], Without(s[1..], gone));
      }
    }
  }

  predicate Retained(ids: set<Id>, a: Arc) {
    a.src in ids && a.dst in ids
  }

  /** Some retained arc leads from u to v. */
  predicate Joined(ids: set<Id>, arcs: seq<Arc>, u: Id, v: Id) {
    u in ids && v in ids && Arc(u, v) in arcs
  }

  ghost predicate Walk(ids: set<Id>, arcs: seq<Arc>, w: seq<Id>) {
    |w| >= 1 && forall i | 0 <= i < |w| - 1 :: Joined(ids, arcs, w[i], w[i + 1])
  }

  ghost predicate WalkTo(ids: set<Id>, arcs: seq<Arc>, w: seq<Id>, n: Id) {
    Walk(ids, arcs, w) && w[|w| - 1] == n
  }

  /** A walk to n whose first vertex comes back at position j: once round a cycle, then on to n. */
  ghost predicate Lasso(ids: set<Id>, arcs: seq<Arc>, w: seq<Id>, j: nat, n: Id) {
    WalkTo(ids, arcs, w, n) && 1 <= j < |w| && w[0] == w[j]
  }

  ghost predicate OnOrAfterCycle(ids: set<Id>, arcs: seq<Arc>, n: Id) {
    exists w, j :: Lasso(ids, arcs, w, j, n)
  }

  ghost predicate Acyclic(ids: set<Id>, arcs: seq<Arc>) {
    forall n | n in ids :: !OnOrAfterCycle(ids, arcs, n)
  }

  // ----- Pigeonhole and the cycle inside a set closed under predecessors -----

  lemma {:induction false} DistinctSize<T>(s: seq<T>)
    requires Distinct(s)
    ensures |Elements(s)| == |s|
  {
    if s != [] {
      var last, rest := s[|s| - 1], s[..|s| - 1];
      DistinctSize(rest);
      assert Elements(s) == Elements(rest) + {last};
    }
  }

  lemma {:induction false} SubsetSize<T>(a: set<T>, b: set<T>)
    requires a <= b
    ensures |a| <= |b|
  {
    if a != {} {
      var x :| x in a;
      SubsetSize(a - {x}, b - {x});
    }
  }

  lemma {:induction false} ElementsSize<T>(s: seq<T>)
    ensures |Elements(s)| <= |s|
  {
    if s != [] {
      var rest := s[..|s| - 1];
      ElementsSize(rest);
      assert Elements(s) == Elements(rest) + {s[|s| - 1]};
    }
  }

  lemma DistinctFits<T>(s: seq<T>, t: set<T>)
    requires Distinct(s) && Elements(s) <= t
    ensures |s| <= |t|
  {
    DistinctSize(s);
    SubsetSize(Elements(s), t);
  }

  ghost predicate HasPredecessorIn(ids: set<Id>, arcs: seq<Arc>, r: set<Id>, v: Id) {
    exists u :: u in r && Joined(ids, arcs, u, v)
  }

  /** Backward walk of any length through a set whose members all have a predecessor in it. */
  lemma {:induction false} BackWalk(ids: set<Id>, arcs: seq<Arc>, r: set<Id>, n: Id, len: nat) returns (w: seq<Id>)
    requires n in r
    requires forall v | v in r :: HasPredecessorIn(ids, arcs, r, v)
    ensures |w| == len + 1 && WalkTo(ids, arcs, w, n)
    ensures forall i | 0 <= i < |w| :: w[i] in r
    decreases len
  {
    hide Joined;
    if len == 0 {
      w := [n];
    } else {
      assert HasPredecessorIn(ids, arcs, r, n);
      var u :| u in r && Joined(ids, arcs, u, n);
      var v := BackWalk(ids, arcs, r, u, len - 1);
      w := v + [n];
      WalkExtends(ids, arcs, v, n);
    }
  }

  lemma WalkExtends(ids: set<Id>, arcs: seq<Arc>, w: seq<Id>, n: Id)
    requires Walk(ids, arcs, w) && Joined(ids, arcs, w[|w| - 1], n)
    ensures WalkTo(ids, arcs, w + [n], n)
  {
    hide Joined;
  }

  lemma ClosedSetHasLasso(ids: set<Id>, arcs: seq<Arc>, r: set<Id>, n: Id)
    requires n in r
    requires forall v | v in r :: HasPredecessorIn(ids, arcs, r, v)
    ensures OnOrAfterCycle(ids, arcs, n)
  {
    var w := BackWalk(ids, arcs, r, n, |r|);
    if Distinct(w) {
      DistinctFits(w, r);
      assert false;
    }
    var i, j :| 0 <= i < j < |w| && w[i] == w[j];
    SuffixWalk(ids, arcs, w, i);
    assert Lasso(ids, arcs, w[i..], j - i, n);
  }

  lemma SuffixWalk(ids: set<Id>, arcs: seq<Arc>, w: seq<Id>, i: nat)
    requires Walk(ids, arcs, w) && i < |w|
    ensures WalkTo(ids, arcs, w[i..], w[|w| - 1])
  {
    var tail := w[i..];
    forall k | 0 <= k < |tail| - 1 ensures Joined(ids, arcs, tail[k], tail[k + 1]) {
      assert Joined(ids, arcs, w[i + k], w[i + k + 1]);
    }
  }

  // ----- Counting arcs -----

  /** Retained arcs among the first k that lead to m from a source not yet in `done`. */
  function InCount(ids: set<Id>, arcs: seq<Arc>, k: nat, m: Id, done: set<Id>): nat
    requires k <= |arcs|
  {
    if k == 0 then 0
    else
      var a := arcs[k - 1];
      InCount(ids, arcs, k - 1, m, done)
      + if Retained(ids, a) && a.dst == m && a.src !in done then 1 else 0
  }

  /** Targets of the retained arcs leaving n among the first k, in arc order. */
  function Targets(ids: set<Id>, arcs: seq<Arc>, k: nat, n: Id): seq<Id>
    requires k <= |arcs|
  {
    if k == 0 then []
    else
      var a := arcs[k - 1];
      if Retained(ids, a) && a.src == n then Targets(ids, arcs, k - 1, n) + [a.dst]
      else Targets(ids, arcs, k - 1, n)
  }

  function Occurrences(s: seq<Id>, m: Id): nat {
    if s == [] then 0 else (if s[0] == m then 1 else 0) + Occurrences(s[1..], m)
  }

  lemma {:induction false} OccurrencesAppend(s: seq<Id>, x: Id, m: Id)
    ensures Occurrences(s + [x], m) == Occurrences(s, m) + if x == m then 1 else 0
  {
    if s == [] {
      assert [] + [x] == [x];
    } else {
      assert (s + [x])[1..] == s[1..] + [x];
      OccurrencesAppend(s[1..], x, m);
    }
  }

  lemma {:induction false} TargetsSound(ids: set<Id>, arcs: seq<Arc>, k: nat, n: Id)
    requires k <= |arcs|
    ensures forall v :: v in Targets(ids, arcs, k, n) <==>
                        Retained(ids, Arc(n, v)) && Arc(n, v) in arcs[..k]
  {
    if k > 0 {
      TargetsSound(ids, arcs, k - 1, n);
      assert arcs[..k] == arcs[..k - 1] + [arcs[k - 1]];
    }
  }

  /** Finishing n takes away exactly its own arcs. */
  lemma {:induction false} InCountSplit(ids: set<Id>, arcs: seq<Arc>, k: nat, m: Id, done: set<Id>, n: Id)
    requires k <= |arcs| && n !in done
    ensures InCount(ids, arcs, k, m, done)
         == InCount(ids, arcs, k, m, done + {n}) + Occurrences(Targets(ids, arcs, k, n), m)
  {
    if k > 0 {
      InCountSplit(ids, arcs, k - 1, m, done, n);
      if arcs[k - 1].src == n {
        OccurrencesAppend(Targets(ids, arcs, k - 1, n), arcs[k - 1].dst, m);
      }
    }
  }

  lemma {:induction false} InCountZero(ids: set<Id>, arcs: seq<Arc>, k: nat, m: Id, done: set<Id>)
    requires k <= |arcs|
    ensures InCount(ids, arcs, k, m, done) == 0
       <==> forall u | Retained(ids, Arc(u, m)) && Arc(u, m) in arcs[..k] :: u in done
  {
    if k > 0 {
      InCountZero(ids, arcs, k - 1, m, done);
      assert arcs[..k] == arcs[..k - 1] + [arcs[k - 1]];
    }
  }

  lemma AllPredecessorsDone(ids: set<Id>, arcs: seq<Arc>, m: Id, done: set<Id>)
    ensures InCount(ids, arcs, |arcs|, m, done) == 0 <==> forall u | Joined(ids, arcs, u, m) :: u in done
  {
    InCountZero(ids, arcs, |arcs|, m, done);
    assert arcs[..|arcs|] == arcs;
  }

  lemma TargetsAreJoined(ids: set<Id>, arcs: seq<Arc>, n: Id)
    ensures forall v :: v in Targets(ids, arcs, |arcs|, n) <==> Joined(ids, arcs, n, v)
  {
    TargetsSound(ids, arcs, |arcs|, n);
    assert arcs[..|arcs|] == arcs;
  }

  // ----- The invariant of Kahn's algorithm -----

  /** `rank` numbers the finished vertices below `next`, `queue` holds the ready ones, `todo` are
      the targets of the latest finished vertex that are still to be discounted. */
  ghost predicate KahnInv(ids: set<Id>, arcs: seq<Arc>, rank: map<Id, nat>, next: nat, queue: set<Id>,
                          indegree: map<Id, int>, todo: seq<Id>) {
    && indegree.Keys == ids
    && Counted(ids, arcs, rank.Keys, indegree, todo)
    && (forall m {:trigger indegree[m]} | m in ids :: indegree[m] == 0 <==> m in rank || m in queue)
    && Ranked(ids, arcs, rank, next, queue)
  }

  /** In-degrees count the arcs from unfinished sources, plus the arcs still to be discounted. */
  ghost predicate Counted(ids: set<Id>, arcs: seq<Arc>, done: set<Id>, indegree: map<Id, int>, todo: seq<Id>)
    requires ids <= indegree.Keys
  {
    && (forall m {:trigger indegree[m]} | m in ids ::
          indegree[m] == InCount(ids, arcs, |arcs|, m, done) + Occurrences(todo, m))
    && (forall m | m in todo :: m in ids)
  }

  ghost predicate Ranked(ids: set<Id>, arcs: seq<Arc>, rank: map<Id, nat>, next: nat, queue: set<Id>) {
    && (forall m | m in rank :: m in ids && m !in queue && rank[m] < next)
    && (forall m | m in queue :: m in ids)
    && Climbs(ids, arcs, rank)
    && (forall u, q {:trigger Joined(ids, arcs, u, q)} | q in queue && Joined(ids, arcs, u, q) :: u in rank)
  }

  /** Every retained arc into a ranked vertex starts at one of smaller rank. */
  ghost predicate Climbs(ids: set<Id>, arcs: seq<Arc>, rank: map<Id, nat>) {
    forall u, v {:trigger Joined(ids, arcs, u, v)} | v in rank && Joined(ids, arcs, u, v) ::
      u in rank && rank[u] < rank[v]
  }

  lemma KahnStart(ids: set<Id>, arcs: seq<Arc>, queue: set<Id>, indegree: map<Id, int>)
    requires indegree.Keys == ids
    requires forall m {:trigger indegree[m]} | m in ids :: indegree[m] == InCount(ids, arcs, |arcs|, m, {})
    requires queue == set m | m in ids && indegree[m] == 0
    ensures KahnInv(ids, arcs, map[], 0, queue, indegree, [])
  {
    var rank: map<Id, nat> := map[];
    assert rank.Keys == {};
    forall u, q | q in queue && Joined(ids, arcs, u, q) ensures u in rank {
      AllPredecessorsDone(ids, arcs, q, {});
    }
  }

  lemma KahnPop(ids: set<Id>, arcs: seq<Arc>, rank: map<Id, nat>, next: nat, queue: set<Id>,
                indegree: map<Id, int>, n: Id)
    requires n in queue && KahnInv(ids, arcs, rank, next, queue, indegree, [])
    ensures n in ids && n !in rank
    ensures KahnInv(ids, arcs, rank[n := next], next + 1, queue - {n}, indegree, Targets(ids, arcs, |arcs|, n))
  {
    CountedPop(ids, arcs, rank.Keys, indegree, n);
    RankedPop(ids, arcs, rank, next, queue, n);
    assert rank[n := next].Keys == rank.Keys + {n};
  }

  lemma RankedPop(ids: set<Id>, arcs: seq<Arc>, rank: map<Id, nat>, next: nat, queue: set<Id>, n: Id)
    requires n in queue && Ranked(ids, arcs, rank, next, queue)
    ensures n in ids && n !in rank
    ensures Ranked(ids, arcs, rank[n := next], next + 1, queue - {n})
  {
  }

  lemma CountedPop(ids: set<Id>, arcs: seq<Arc>, done: set<Id>, indegree: map<Id, int>, n: Id)
    requires ids <= indegree.Keys && n !in done && Counted(ids, arcs, done, indegree, [])
    ensures Counted(ids, arcs, done + {n}, indegree, Targets(ids, arcs, |arcs|, n))
  {
    forall m | m in ids
      ensures indegree[m] == InCount(ids, arcs, |arcs|, m, done + {n}) + Occurrences(Targets(ids, arcs, |arcs|, n), m)
    {
      InCountSplit(ids, arcs, |arcs|, m, done, n);
    }
    TargetsAreJoined(ids, arcs, n);
  }

  lemma KahnDiscount(ids: set<Id>, arcs: seq<Arc>, rank: map<Id, nat>, next: nat, queue: set<Id>,
                     indegree: map<Id, int>, todo: seq<Id>)
    requires todo != [] && KahnInv(ids, arcs, rank, next, queue, indegree, todo)
    ensures var m := todo[0];
            && m in indegree && m !in rank && m !in queue && indegree[m] >= 1
            && KahnInv(ids, arcs, rank, next, if indegree[m] == 1 then queue + {m} else queue,
                       indegree[m := indegree[m] - 1], todo[1..])
  {
    var m := todo[0];
    assert m in todo && Occurrences(todo, m) >= 1;
    assert forall x :: x in todo[1..] ==> x in todo;
    if indegree[m] == 1 {
      AllPredecessorsDone(ids, arcs, m, rank.Keys);
    }
  }

  /** When the queue runs dry the unranked vertices are exactly those on or after a cycle. */
  lemma KahnDone(ids: set<Id>, arcs: seq<Arc>, rank: map<Id, nat>, next: nat, indegree: map<Id, int>)
    requires KahnInv(ids, arcs, rank, next, {}, indegree, [])
    ensures rank.Keys <= ids && Climbs(ids, arcs, rank)
    ensures forall n | n in ids :: n in rank <==> !OnOrAfterCycle(ids, arcs, n)
  {
    var rest := ids - rank.Keys;
    forall n | n in ids ensures n in rank <==> !OnOrAfterCycle(ids, arcs, n) {
      if n in rank {
        forall w, j ensures !Lasso(ids, arcs, w, j, n) {
          LassoUnranked(ids, arcs, rank, w, j, n);
        }
      } else {
        forall v | v in rest ensures HasPredecessorIn(ids, arcs, rest, v) {
          AllPredecessorsDone(ids, arcs, v, rank.Keys);
        }
        ClosedSetHasLasso(ids, arcs, rest, n);
      }
    }
  }

  /** Along a walk to a ranked vertex every vertex is ranked, and ranks rise at each step. */
  lemma {:induction false} WalkClimbs(ids: set<Id>, arcs: seq<Arc>, rank: map<Id, nat>, w: seq<Id>)
    requires Climbs(ids, arcs, rank) && Walk(ids, arcs, w) && w[|w| - 1] in rank
    ensures w[0] in rank && (|w| > 1 ==> rank[w[0]] < rank[w[|w| - 1]])
    decreases |w|
  {
    if |w| > 1 {
      assert Joined(ids, arcs, w[|w| - 2], w[|w| - 1]);
      WalkClimbs(ids, arcs, rank, w[..|w| - 1]);
    }
  }

  lemma LassoUnranked(ids: set<Id>, arcs: seq<Arc>, rank: map<Id, nat>, w: seq<Id>, j: nat, n: Id)
    requires Climbs(ids, arcs, rank) && n in rank
    ensures !Lasso(ids, arcs, w, j, n)
  {
    if Lasso(ids, arcs, w, j, n) {
      SuffixWalk(ids, arcs, w, j);
      WalkClimbs(ids, arcs, rank, w[j..]);
      WalkClimbs(ids, arcs, rank, w[..j + 1]);
    }
  }

  // ----- Acyclicity is the existence of a ranking -----

  ghost predicate Ranking(ids: set<Id>, arcs: seq<Arc>, rank: Id -> nat) {
    forall u, v {:trigger Joined(ids, arcs, u, v)} | Joined(ids, arcs, u, v) :: rank(u) < rank(v)
  }

  lemma {:induction false} RankedWalk(ids: set<Id>, arcs: seq<Arc>, rank: Id -> nat, w: seq<Id>)
    requires Ranking(ids, arcs, rank) && Walk(ids, arcs, w)
    ensures rank(w[0]) + |w| <= rank(w[|w| - 1]) + 1
    decreases |w|
  {
    if |w| > 1 {
      assert Joined(ids, arcs, w[|w| - 2], w[|w| - 1]);
      RankedWalk(ids, arcs, rank, w[..|w| - 1]);
    }
  }

  lemma RankingIsAcyclic(ids: set<Id>, arcs: seq<Arc>, rank: Id -> nat)
    requires Ranking(ids, arcs, rank)
    ensures Acyclic(ids, arcs)
  {
    forall w, j, n ensures !Lasso(ids, arcs, w, j, n) {
      if Lasso(ids, arcs, w, j, n) {
        RankedWalk(ids, arcs, rank, w[..j + 1]);
      }
    }
  }

  /** Peel off vertices without a predecessor, lowest rank first. */
  lemma {:induction false} AcyclicHasRanking(ids: set<Id>, arcs: seq<Arc>) returns (rank: Id -> nat)
    requires Acyclic(ids, arcs)
    ensures Ranking(ids, arcs, rank)
    decreases ids
  {
    if ids == {} {
      rank := n => 0;
    } else {
      var v := FindSource(ids, arcs);
      SubgraphAcyclic(ids, arcs, v);
      var inner := AcyclicHasRanking(ids - {v}, arcs);
      rank := n => if n == v then 0 else inner(n) + 1;
      forall x, y | Joined(ids, arcs, x, y) ensures rank(x) < rank(y) {
        assert y != v;
        assert x != v ==> Joined(ids - {v}, arcs, x, y);
      }
    }
  }

  lemma FindSource(ids: set<Id>, arcs: seq<Arc>) returns (v: Id)
    requires Acyclic(ids, arcs) && ids != {}
    ensures v in ids && forall u :: !Joined(ids, arcs, u, v)
  {
    if forall x | x in ids :: HasPredecessorIn(ids, arcs, ids, x) {
      var x :| x in ids;
      ClosedSetHasLasso(ids, arcs, ids, x);
      v := x;
    } else {
      v :| v in ids && !HasPredecessorIn(ids, arcs, ids, v);
    }
  }

  lemma LassoLifts(ids: set<Id>, arcs: seq<Arc>, v: Id, w: seq<Id>, j: nat, n: Id)
    requires Lasso(ids - {v}, arcs, w, j, n)
    ensures Lasso(ids, arcs, w, j, n)
  {
    forall i | 0 <= i < |w| - 1 ensures Joined(ids, arcs, w[i], w[i + 1]) {
      assert Joined(ids - {v}, arcs, w[i], w[i + 1]);
    }
  }

  lemma SubgraphAcyclic(ids: set<Id>, arcs: seq<Arc>, v: Id)
    requires Acyclic(ids, arcs)
    ensures Acyclic(ids - {v}, arcs)
  {
    forall n, w, j | n in ids ensures !Lasso(ids - {v}, arcs, w, j, n) {
      if Lasso(ids - {v}, arcs, w, j, n) {
        LassoLifts(ids, arcs, v, w, j, n);
      }
    }
  }
}
