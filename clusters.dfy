/**
 * The connected components of `findSimilarityClusters` in
 * `src/lib/similarity/text.ts`, over the pair map that `findSimilarPairs`
 * builds: a dictionary from a response id to the list of `{ id, score }`
 * entries of the responses similar to it.
 */
module Clusters {
  /** One entry `{ id, score }` of a pair list. */
  datatype Edge = Edge(id: string, score: real)

  type PairMap = map<string, seq<Edge>>

  predicate NoDup(xs: seq<string>) {
    forall i, j :: 0 <= i < j < |xs| ==> xs[i] != xs[j]
  }

  /** `keys` lists the map's keys, each once. */
  predicate KeyOrder(pairs: PairMap, keys: seq<string>) {
    NoDup(keys) && (forall x :: x in keys ==> x in pairs) && (forall x :: x in pairs ==> x in keys)
  }

  predicate Symmetric(pairs: PairMap) {
    forall x, e :: x in pairs && e in pairs[x] ==> e.id in pairs && Edge(x, e.score) in pairs[e.id]
  }

  /** The ids of all clusters, in order. */
  function Members(clusters: seq<seq<string>>): seq<string> {
    if clusters == [] then [] else Members(clusters[..|clusters| - 1]) + clusters[|clusters| - 1]
  }

  
  /** The ids listed under one key. */
  function Ids(es: seq<Edge>): (ids: seq<string>)
    ensures |ids| == |es|
  {
    seq(|es|, k requires 0 <= k < |es| => es[k].id)
  }

  lemma NoDupConcat(xs: seq<string>, ys: seq<string>)
    requires NoDup(xs) && NoDup(ys) && forall x :: x in xs ==> x !in ys
    ensures NoDup(xs + ys)
  {
    forall i, j | 0 <= i < j < |xs + ys|
      ensures (xs + ys)[i] != (xs + ys)[j]
    {
      if i < |xs| && |xs| <= j {
        assert (xs + ys)[i] in xs && (xs + ys)[j] == ys[j - |xs|];
      }
    }
  }

  lemma InIds(es: seq<Edge>, e: Edge)
    requires e in es
    ensures e.id in Ids(es)
  {
    var k :| 0 <= k < |es| && es[k] == e;
    assert Ids(es)[k] == e.id;
  }

  /** `y` is listed under `x`. */
  predicate Adjacent(pairs: PairMap, x: string, y: string) {
    x in pairs && y in Ids(pairs[x])
  }

  lemma AdjacentSymmetric(pairs: PairMap, x: string, y: string)
    requires Symmetric(pairs) && Adjacent(pairs, x, y)
    ensures Adjacent(pairs, y, x)
  {
    var k :| 0 <= k < |pairs[x]| && Ids(pairs[x])[k] == y;
    var e := pairs[x][k];
    assert Edge(x, e.score) in pairs[y];
    var m :| 0 <= m < |pairs[y]| && pairs[y][m] == Edge(x, e.score);
    assert Ids(pairs[y])[m] == x;
  }

  /** Every neighbour of a member is a member. */
  ghost predicate Closed(pairs: PairMap, cluster: seq<string>) {
    forall x, y :: x in cluster && Adjacent(pairs, x, y) ==> y in cluster
  }

  /** In breadth-first order, every member after the first is a neighbour of an earlier one. */
  ghost predicate Spanning(pairs: PairMap, cluster: seq<string>) {
    forall k :: 0 < k < |cluster| ==> FoundFromEarlier(pairs, cluster, k)
  }

  ghost predicate FoundFromEarlier(pairs: PairMap, cluster: seq<string>, k: nat)
    requires k < |cluster|
  {
    exists m :: 0 <= m < k && Adjacent(pairs, cluster[m], cluster[k])
  }

  predicate HasOtherNeighbour(pairs: PairMap, x: string) {
    x in pairs && exists y :: y in Ids(pairs[x]) && y != x
  }

  /**
   * The loop of `findSimilarityClusters` over `Object.keys(pairs)`. Each cluster
   * has at least two ids, is closed under the pair map and spans it from its
   * first id; no id is in two clusters or twice in one; and every key listed
   * with some id other than itself is in a cluster.
   */
  method Components(pairs: PairMap, keys: seq<string>) returns (clusters: seq<seq<string>>)
    requires Symmetric(pairs) && KeyOrder(pairs, keys)
    ensures NoDup(Members(clusters))
    ensures forall x :: x in Members(clusters) ==> x in pairs
    ensures forall a :: 0 <= a < |clusters| ==>
      |clusters[a]| >= 2 && Closed(pairs, clusters[a]) && Spanning(pairs, clusters[a])
    ensures forall x :: HasOtherNeighbour(pairs, x) ==> x in Members(clusters)
  {
    var visited: set<string> := {};
    clusters := [];
    for t := 0 to |keys|
      invariant visited <= pairs.Keys
      invariant forall x, y :: x in visited && Adjacent(pairs, x, y) ==> y in visited
      invariant forall s :: 0 <= s < t ==> keys[s] in visited
      invariant NoDup(Members(clusters))
      invariant forall x :: x in Members(clusters) ==> x in visited
      invariant forall a :: 0 <= a < |clusters| ==>
        |clusters[a]| >= 2 && Closed(pairs, clusters[a]) && Spanning(pairs, clusters[a])
      invariant forall x :: x in visited && HasOtherNeighbour(pairs, x) ==> x in Members(clusters)
    {
      var responseId := keys[t];
      if responseId in visited {
        continue;
      }
      var cluster, visited' := Explore(pairs, responseId, visited);
      if |cluster| > 1 {
        assert (clusters + [cluster])[..|clusters|] == clusters;
        NoDupConcat(Members(clusters), cluster);
        clusters := clusters + [cluster];
      } else {
        assert cluster == [responseId];
        assert !HasOtherNeighbour(pairs, responseId) by {
          forall y | y in Ids(pairs[responseId])
            ensures y == responseId
          {
            assert Adjacent(pairs, responseId, y);
          }
        }
      }
      visited := visited';
    }
  }

  /**
   * The breadth-first search of lines 127-144, from `root` with the ids already
   * visited by earlier searches: the cluster is the part of the graph newly
   * reached, in visiting order, and is closed under the pair map.
   */
  method Explore(pairs: PairMap, root: string, visited0: set<string>) returns (cluster: seq<string>, visited: set<string>)
    requires Symmetric(pairs) && root in pairs && root !in visited0 && visited0 <= pairs.Keys
    requires forall x, y :: x in visited0 && Adjacent(pairs, x, y) ==> y in visited0
    ensures visited <= pairs.Keys && forall x :: x in visited <==> x in visited0 || x in cluster
    ensures forall x, y :: x in visited && Adjacent(pairs, x, y) ==> y in visited
    ensures |cluster| > 0 && cluster[0] == root && NoDup(cluster)
    ensures forall x :: x in cluster ==> x !in visited0
    ensures Closed(pairs, cluster) && Spanning(pairs, cluster)
  {
    visited := visited0;
    cluster := [];
    var queue := [root];
    while |queue| > 0
      invariant SearchBasics(pairs, root, visited0, visited, cluster, queue)
      invariant SearchTree(pairs, cluster, queue)
      invariant SearchFrontier(pairs, visited, cluster, queue)
      decreases |pairs.Keys - visited|, |queue|
    {
      visited, cluster, queue := SearchStep(pairs, root, visited0, visited, cluster, queue);
    }
    ClosedAtEnd(pairs, root, visited0, visited, cluster);
  }

  /**
   * The bookkeeping of the search: `visited` is the earlier searches' ids plus
   * the cluster so far, whose first member is the root; nothing is repeated.
   */
  ghost predicate SearchBasics(pairs: PairMap, root: string, visited0: set<string>, visited: set<string>,
                               cluster: seq<string>, queue: seq<string>) {
    root !in visited0 && visited <= pairs.Keys && (forall q :: q in queue ==> q in pairs) &&
    (forall x :: x in visited <==> x in visited0 || x in cluster) &&
    NoDup(cluster) && (forall x :: x in cluster ==> x !in visited0) &&
    (cluster == [] ==> queue == [root]) &&
    (cluster != [] ==> cluster[0] == root)
  }

  /** The cluster so far spans from its root, and every queued id is listed by a member. */
  ghost predicate SearchTree(pairs: PairMap, cluster: seq<string>, queue: seq<string>) {
    Spanning(pairs, cluster) && (cluster != [] ==> forall q :: q in queue ==> ListedByMember(pairs, cluster, q))
  }

  ghost predicate ListedByMember(pairs: PairMap, cluster: seq<string>, y: string) {
    exists m :: 0 <= m < |cluster| && Adjacent(pairs, cluster[m], y)
  }

  /** Every neighbour of a member is visited or waiting in the queue. */
  ghost predicate SearchFrontier(pairs: PairMap, visited: set<string>, cluster: seq<string>, queue: seq<string>) {
    forall x, y :: x in cluster && Adjacent(pairs, x, y) ==> y in visited || y in queue
  }

  /**
   * One turn of the `while (queue.length > 0)` loop: take the first queued id;
   * skip it if visited, otherwise visit it and queue its unvisited neighbours.
   */
  method SearchStep(pairs: PairMap, root: string, visited0: set<string>, visited: set<string>,
                    cluster: seq<string>, queue: seq<string>)
    returns (visited': set<string>, cluster': seq<string>, queue': seq<string>)
    requires Symmetric(pairs) && queue != []
    requires SearchBasics(pairs, root, visited0, visited, cluster, queue)
    requires SearchTree(pairs, cluster, queue)
    requires SearchFrontier(pairs, visited, cluster, queue)
    ensures SearchBasics(pairs, root, visited0, visited', cluster', queue')
    ensures SearchTree(pairs, cluster', queue')
    ensures SearchFrontier(pairs, visited', cluster', queue')
    ensures (visited' == visited && |queue'| < |queue|) || |pairs.Keys - visited'| < |pairs.Keys - visited|
  {
    var currentId := queue[0];
    if currentId in visited {
      SkipKeepsSearch(pairs, root, visited0, visited, cluster, queue);
      return visited, cluster, queue[1..];
    }
    VisitShrinks(pairs.Keys, visited, currentId);
    var similar := if currentId in pairs then pairs[currentId] else [];
    queue' := EnqueueUnvisited(queue[1..], similar, visited + {currentId});
    VisitKeepsBasics(pairs, root, visited0, visited, cluster, queue, queue');
    assert currentId in queue;
    RequeuedFrom(pairs, visited, queue, queue');
    VisitKeepsTree(pairs, cluster, queue, queue');
    VisitKeepsFrontier(pairs, root, visited0, visited, cluster, queue, queue');
    visited' := visited + {currentId};
    cluster' := cluster + [currentId];
  }

  lemma SkipKeepsSearch(pairs: PairMap, root: string, visited0: set<string>, visited: set<string>,
                        cluster: seq<string>, queue: seq<string>)
    requires queue != [] && queue[0] in visited
    requires SearchBasics(pairs, root, visited0, visited, cluster, queue)
    requires SearchTree(pairs, cluster, queue)
    requires SearchFrontier(pairs, visited, cluster, queue)
    ensures SearchBasics(pairs, root, visited0, visited, cluster, queue[1..])
    ensures SearchTree(pairs, cluster, queue[1..])
    ensures SearchFrontier(pairs, visited, cluster, queue[1..])
  {
    assert cluster != [];
    forall x, y | x in cluster && Adjacent(pairs, x, y)
      ensures y in visited || y in queue[1..]
    {
      assert queue == [queue[0]] + queue[1..];
    }
    forall q | q in queue[1..]
      ensures ListedByMember(pairs, cluster, q)
    {
      assert q in queue;
    }
  }

  /** What `EnqueueUnvisited` promises about the queue after visiting `queue[0]`. */
  ghost predicate Requeued(pairs: PairMap, visited: set<string>, queue: seq<string>, queue': seq<string>)
    requires queue != []
  {
    queue[0] in pairs &&
    |queue| - 1 <= |queue'| && queue'[..|queue| - 1] == queue[1..] &&
    (forall i :: |queue| - 1 <= i < |queue'| ==>
      queue'[i] in Ids(pairs[queue[0]]) && queue'[i] !in visited + {queue[0]}) &&
    (forall e :: e in pairs[queue[0]] ==> e.id in visited + {queue[0]} || e.id in queue')
  }

  lemma VisitKeepsBasics(pairs: PairMap, root: string, visited0: set<string>, visited: set<string>,
                         cluster: seq<string>, queue: seq<string>, queue': seq<string>)
    requires Symmetric(pairs) && queue != [] && queue[0] !in visited
    requires SearchBasics(pairs, root, visited0, visited, cluster, queue)
    requires queue[0] in pairs ==> Requeued(pairs, visited, queue, queue')
    ensures SearchBasics(pairs, root, visited0, visited + {queue[0]}, cluster + [queue[0]], queue')
  {
    var x := queue[0];
    assert x in queue;
    NewlyQueuedAreNeighbours(pairs, x, queue[1..], queue');
    forall q | q in queue'
      ensures q in pairs
    {
      var i :| 0 <= i < |queue'| && queue'[i] == q;
      if i < |queue| - 1 {
        assert queue'[i] == queue[i + 1];
        assert queue[i + 1] in queue;
      }
    }
    if cluster == [] {
      assert x == root;
    }
  }

  /** The queue after a visit holds the rest of the old queue and neighbours of the visited id. */
  lemma RequeuedFrom(pairs: PairMap, visited: set<string>, queue: seq<string>, queue': seq<string>)
    requires queue != [] && Requeued(pairs, visited, queue, queue')
    ensures forall q :: q in queue' ==> q in queue[1..] || Adjacent(pairs, queue[0], q)
  {
    var n := |queue| - 1;
    forall q | q in queue'
      ensures q in queue[1..] || Adjacent(pairs, queue[0], q)
    {
      var i :| 0 <= i < |queue'| && queue'[i] == q;
      if i < n {
        assert queue'[i] == queue'[..n][i] == queue[1..][i];
      }
    }
  }

  lemma VisitKeepsTree(pairs: PairMap, cluster: seq<string>, queue: seq<string>, queue': seq<string>)
    requires queue != [] && (cluster == [] ==> queue == [queue[0]])
    requires SearchTree(pairs, cluster, queue)
    requires forall q :: q in queue' ==> q in queue[1..] || Adjacent(pairs, queue[0], q)
    ensures SearchTree(pairs, cluster + [queue[0]], queue')
  {
    var x := queue[0];
    var cluster' := cluster + [x];
    forall k | 0 < k < |cluster'|
      ensures FoundFromEarlier(pairs, cluster', k)
    {
      if k < |cluster| {
        assert FoundFromEarlier(pairs, cluster, k);
        var m :| 0 <= m < k && Adjacent(pairs, cluster[m], cluster[k]);
        assert cluster'[m] == cluster[m] && cluster'[k] == cluster[k];
      } else {
        assert x in queue;
        var m :| 0 <= m < |cluster| && Adjacent(pairs, cluster[m], x);
        assert cluster'[m] == cluster[m] && cluster'[k] == x;
      }
    }
    forall q | q in queue'
      ensures ListedByMember(pairs, cluster', q)
    {
      if q in queue[1..] {
        assert q in queue && cluster != [];
        var m :| 0 <= m < |cluster| && Adjacent(pairs, cluster[m], q);
        assert cluster'[m] == cluster[m];
      } else {
        assert cluster'[|cluster|] == x;
      }
    }
  }

  /** After visiting the first queued id, every neighbour of the cluster is still visited or queued. */
  lemma VisitKeepsFrontier(pairs: PairMap, root: string, visited0: set<string>, visited: set<string>,
                           cluster: seq<string>, queue: seq<string>, queue': seq<string>)
    requires queue != [] && queue[0] !in visited
    requires SearchBasics(pairs, root, visited0, visited, cluster, queue)
    requires SearchFrontier(pairs, visited, cluster, queue)
    requires queue[0] in pairs ==> Requeued(pairs, visited, queue, queue')
    ensures SearchFrontier(pairs, visited + {queue[0]}, cluster + [queue[0]], queue')
  {
    var x := queue[0];
    assert x in queue;
    forall z, y | z in cluster + [x] && Adjacent(pairs, z, y)
      ensures y in visited + {x} || y in queue'
    {
      if z == x {
        var k :| 0 <= k < |pairs[x]| && Ids(pairs[x])[k] == y;
        assert pairs[x][k] in pairs[x];
      } else {
        assert z in cluster;
        assert queue == [x] + queue[1..];
        assert y in queue[1..] ==> y in queue'[..|queue| - 1];
      }
    }
  }

  lemma NewlyQueuedAreNeighbours(pairs: PairMap, x: string, queue0: seq<string>, queue: seq<string>)
    requires Symmetric(pairs) && x in pairs
    requires |queue0| <= |queue|
    requires forall i :: |queue0| <= i < |queue| ==> queue[i] in Ids(pairs[x])
    ensures forall i :: |queue0| <= i < |queue| ==> queue[i] in pairs && Adjacent(pairs, x, queue[i])
  {
    forall i | |queue0| <= i < |queue|
      ensures queue[i] in pairs && Adjacent(pairs, x, queue[i])
    {
      AdjacentSymmetric(pairs, x, queue[i]);
    }
  }

  /** A search that has run dry reached a set closed under the pair map. */
  lemma ClosedAtEnd(pairs: PairMap, root: string, visited0: set<string>, visited: set<string>, cluster: seq<string>)
    requires Symmetric(pairs)
    requires forall x, y :: x in visited0 && Adjacent(pairs, x, y) ==> y in visited0
    requires SearchBasics(pairs, root, visited0, visited, cluster, [])
    requires SearchFrontier(pairs, visited, cluster, [])
    ensures Closed(pairs, cluster)
    ensures forall x, y :: x in visited && Adjacent(pairs, x, y) ==> y in visited
  {
    forall x, y | x in cluster && Adjacent(pairs, x, y)
      ensures y in cluster
    {
      if y in visited0 {
        AdjacentSymmetric(pairs, x, y);
      }
    }
  }

  lemma VisitShrinks(keys: set<string>, visited: set<string>, x: string)
    requires x in keys && x !in visited
    ensures |keys - (visited + {x})| < |keys - visited|
  {
    assert keys - (visited + {x}) == (keys - visited) - {x};
  }

  /**
   * Lines 139-143: push the id of every entry not yet visited, in list order.
   * The old queue stays in front, and every entry ends up visited or queued.
   */
  method EnqueueUnvisited(queue0: seq<string>, similar: seq<Edge>, visited: set<string>) returns (queue: seq<string>)
    ensures |queue0| <= |queue| && queue[..|queue0|] == queue0
    ensures forall i :: |queue0| <= i < |queue| ==> queue[i] in Ids(similar) && queue[i] !in visited
    ensures forall e :: e in similar ==> e.id in visited || e.id in queue
  {
    queue := queue0;
    for k := 0 to |similar|
      invariant |queue0| <= |queue| && queue[..|queue0|] == queue0
      invariant forall i :: |queue0| <= i < |queue| ==> queue[i] in Ids(similar) && queue[i] !in visited
      invariant forall m :: 0 <= m < k ==> similar[m].id in visited || similar[m].id in queue
    {
      if similar[k].id !in visited {
        assert Ids(similar)[k] == similar[k].id;
        queue := queue + [similar[k].id];
      }
    }
  }
}
