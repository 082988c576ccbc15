/**
 * The graph half of `src/lib/similarity/text.ts`: the thresholded pair map of
 * `findSimilarPairs`, the breadth-first connected components of
 * `findSimilarityClusters`, and the single-pair `getSimilarityScore`.
 *
 * A JavaScript object used as a dictionary is an ordered map: it is modelled as
 * a Dafny `map` together with the sequence of its keys in insertion order, which
 * is the order `Object.keys` reports for non-numeric keys such as UUIDs.
 */
module SimilarityGraph {
  import opened Wrappers
  import opened Types
  import opened Strings
  import opened Similarity
  import opened Clusters

  /**
   * The `threshold = 0.9` default of `findSimilarPairs`, `findSimilarityClusters`
   * and `getSimilarityScore`; a caller that passes no threshold passes this one.
   */
  const DefaultThreshold: real := 0.9

  predicate IsCompleted(r: ResponseRecord) {
    r.status == Done && Trim(r.text) != []
  }

  /** `responses.filter((r) => r.status === "done" && r.text.trim().length > 0)`. */
  function Completed(responses: seq<ResponseRecord>): (c: seq<ResponseRecord>)
    ensures |c| <= |responses|
    ensures forall r :: r in c <==> r in responses && IsCompleted(r)
  {
    if responses == [] then []
    else (if IsCompleted(responses[0]) then [responses[0]] else []) + Completed(responses[1..])
  }

  function Texts(c: seq<ResponseRecord>): (texts: seq<string>)
    ensures |texts| == |c|
  {
    seq(|c|, i requires 0 <= i < |c| => c[i].text)
  }

  /** The score `findSimilarPairs` computes for the `a`-th and `b`-th completed responses. */
  function PairScore(c: seq<ResponseRecord>, a: nat, b: nat, sqrt: real -> real): real
    requires a < |c| && b < |c|
  {
    var vs := TermVectors(Texts(c));
    Cosine(vs[a], vs[b], sqrt).value
  }

  /** The pair score does not depend on the order of the two responses. */
  lemma PairScoreSymmetric(c: seq<ResponseRecord>, a: nat, b: nat, sqrt: real -> real)
    requires a < |c| && b < |c|
    ensures PairScore(c, a, b, sqrt) == PairScore(c, b, a, sqrt)
  {
    var vs := TermVectors(Texts(c));
    CosineSymmetric(vs[a], vs[b], sqrt);
  }

  /** Two distinct completed responses with these ids score `score`, at or above the threshold. */
  ghost predicate IsEdge(c: seq<ResponseRecord>, threshold: real, sqrt: real -> real, x: string, e: Edge) {
    exists a, b :: 0 <= a < |c| && 0 <= b < |c| && a != b && c[a].id == x && c[b].id == e.id &&
      e.score == PairScore(c, a, b, sqrt) && e.score >= threshold
  }

  predicate Linked(pairs: PairMap, x: string, e: Edge) {
    x in pairs && e in pairs[x]
  }

  /**
   * What the pair map holds: every list is non-empty; every entry is a pair of
   * distinct completed responses scoring at or above the threshold; and every
   * such pair is listed under both of its ids.
   */
  ghost predicate Describes(pairs: PairMap, c: seq<ResponseRecord>, threshold: real, sqrt: real -> real) {
    (forall x :: x in pairs ==> pairs[x] != []) &&
    (forall x, e :: x in pairs && e in pairs[x] ==> IsEdge(c, threshold, sqrt, x, e)) &&
    (forall a, b :: 0 <= a < b < |c| && PairScore(c, a, b, sqrt) >= threshold ==>
      Linked(pairs, c[a].id, Edge(c[b].id, PairScore(c, a, b, sqrt))) &&
      Linked(pairs, c[b].id, Edge(c[a].id, PairScore(c, a, b, sqrt))))
  }


  /** Lines 102 and 105 (and 103 and 106): give `x` a list if it has none, then push `e` onto it. */
  method Push(pairs: PairMap, keys: seq<string>, x: string, e: Edge) returns (pairs': PairMap, keys': seq<string>)
    requires KeyOrder(pairs, keys)
    ensures KeyOrder(pairs', keys') && |keys| <= |keys'| && keys'[..|keys|] == keys
    ensures pairs'.Keys == pairs.Keys + {x}
    ensures pairs'[x] == (if x in pairs then pairs[x] else []) + [e]
    ensures forall y :: y in pairs && y != x ==> pairs'[y] == pairs[y]
    ensures forall y :: y in pairs' ==> pairs'[y] != [] || (y in pairs && pairs[y] == [])
    ensures forall y, f :: Linked(pairs', y, f) <==> Linked(pairs, y, f) || (y == x && f == e)
  {
    pairs', keys' := pairs, keys;
    if x !in pairs' {
      pairs' := pairs'[x := []];
      keys' := keys' + [x];
    }
    var list := pairs'[x];
    assert forall f :: f in list + [e] <==> f in list || f == e;
    pairs' := pairs'[x := list + [e]];
  }

  /** Lines 102-106: both ids get a list, then each is pushed onto the other's. */
  method AddPair(pairs: PairMap, keys: seq<string>, id1: string, id2: string, score: real)
    returns (pairs': PairMap, keys': seq<string>)
    requires KeyOrder(pairs, keys)
    ensures KeyOrder(pairs', keys') && |keys| <= |keys'| && keys'[..|keys|] == keys
    ensures forall x :: x in pairs' ==> pairs'[x] != [] || (x in pairs && pairs[x] == [])
    ensures forall x, e :: Linked(pairs', x, e) <==>
      (Linked(pairs, x, e) || (x == id1 && e == Edge(id2, score)) || (x == id2 && e == Edge(id1, score)))
  {
    var p1, k1 := Push(pairs, keys, id1, Edge(id2, score));
    pairs', keys' := Push(p1, k1, id2, Edge(id1, score));
    assert keys'[..|keys|] == k1[..|k1|][..|keys|];
    assert forall x :: x in pairs' ==> pairs'[x] != [] || (x in p1 && p1[x] == []);
  }

  /** The pairs `(a, b)` with `a < b` that the nested loops have visited before `(i, j)`. */
  predicate Before(a: int, b: int, i: int, j: int) {
    a < i || (a == i && b < j)
  }

  ghost predicate CompleteUpTo(pairs: PairMap, c: seq<ResponseRecord>, threshold: real, sqrt: real -> real, i: int, j: int) {
    forall a, b :: 0 <= a < b < |c| && Before(a, b, i, j) && PairScore(c, a, b, sqrt) >= threshold ==>
      Linked(pairs, c[a].id, Edge(c[b].id, PairScore(c, a, b, sqrt))) &&
      Linked(pairs, c[b].id, Edge(c[a].id, PairScore(c, a, b, sqrt)))
  }

  ghost predicate SoundSoFar(pairs: PairMap, c: seq<ResponseRecord>, threshold: real, sqrt: real -> real) {
    (forall x :: x in pairs ==> pairs[x] != []) &&
    (forall x, e :: x in pairs && e in pairs[x] ==> IsEdge(c, threshold, sqrt, x, e))
  }

  /**
   * `findSimilarPairs`: an empty map when fewer than two responses are completed;
   * otherwise the map `Describes` characterises, with its keys in insertion order.
   */
  method FindSimilarPairs(responses: seq<ResponseRecord>, threshold: real, sqrt: real -> real)
    returns (pairs: PairMap, keys: seq<string>)
    ensures |Completed(responses)| < 2 ==> pairs == map[] && keys == []
    ensures Describes(pairs, Completed(responses), threshold, sqrt)
    ensures KeyOrder(pairs, keys)
  {
    var completed := Completed(responses);
    if |completed| < 2 {
      return map[], [];
    }
    var texts := Texts(completed);
    var vectors, _ := CalculateTermFrequencies(texts);
    pairs, keys := map[], [];
    var i := 0;
    while i < |vectors|
      invariant 0 <= i <= |vectors|
      invariant KeyOrder(pairs, keys)
      invariant SoundSoFar(pairs, completed, threshold, sqrt)
      invariant CompleteUpTo(pairs, completed, threshold, sqrt, i, i + 1)
    {
      pairs, keys := ScanRow(completed, vectors, i, pairs, keys, threshold, sqrt);
      i := i + 1;
    }
  }

  /** The inner loop of `findSimilarPairs`: row `i` against every later response. */
  method ScanRow(completed: seq<ResponseRecord>, vectors: seq<seq<real>>, i: nat,
                 pairs0: PairMap, keys0: seq<string>, threshold: real, sqrt: real -> real)
    returns (pairs: PairMap, keys: seq<string>)
    requires vectors == TermVectors(Texts(completed)) && i < |completed|
    requires KeyOrder(pairs0, keys0) && SoundSoFar(pairs0, completed, threshold, sqrt)
    requires CompleteUpTo(pairs0, completed, threshold, sqrt, i, i + 1)
    ensures KeyOrder(pairs, keys) && SoundSoFar(pairs, completed, threshold, sqrt)
    ensures CompleteUpTo(pairs, completed, threshold, sqrt, i + 1, i + 2)
  {
    pairs, keys := pairs0, keys0;
    var j := i + 1;
    while j < |vectors|
      invariant i + 1 <= j <= |vectors|
      invariant KeyOrder(pairs, keys)
      invariant SoundSoFar(pairs, completed, threshold, sqrt)
      invariant CompleteUpTo(pairs, completed, threshold, sqrt, i, j)
    {
      var r := CosineSimilarity(vectors[i], vectors[j], sqrt);
      var similarity := r.value;
      assert similarity == PairScore(completed, i, j, sqrt);
      if similarity >= threshold {
        var id1 := completed[i].id;
        var id2 := completed[j].id;
        var pairs', keys' := AddPair(pairs, keys, id1, id2, similarity);
        AddPairKeepsInvariant(completed, i, j, pairs, pairs', threshold, sqrt);
        pairs, keys := pairs', keys';
      } else {
        SkipPairKeepsInvariant(completed, i, j, pairs, threshold, sqrt);
      }
      j := j + 1;
    }
    RowDone(completed, i, pairs, threshold, sqrt);
  }

  lemma SkipPairKeepsInvariant(c: seq<ResponseRecord>, i: nat, j: nat, pairs: PairMap, threshold: real, sqrt: real -> real)
    requires i < j < |c| && PairScore(c, i, j, sqrt) < threshold
    requires CompleteUpTo(pairs, c, threshold, sqrt, i, j)
    ensures CompleteUpTo(pairs, c, threshold, sqrt, i, j + 1)
  {
  }

  lemma RowDone(c: seq<ResponseRecord>, i: nat, pairs: PairMap, threshold: real, sqrt: real -> real)
    requires i < |c| && CompleteUpTo(pairs, c, threshold, sqrt, i, |c|)
    ensures CompleteUpTo(pairs, c, threshold, sqrt, i + 1, i + 2)
  {
  }

  /** Adding the pair `(i, j)` keeps the map sound and extends completeness past `(i, j)`. */
  lemma AddPairKeepsInvariant(c: seq<ResponseRecord>, i: nat, j: nat, pairs: PairMap, pairs': PairMap,
                              threshold: real, sqrt: real -> real)
    requires i < j < |c| && PairScore(c, i, j, sqrt) >= threshold
    requires SoundSoFar(pairs, c, threshold, sqrt) && CompleteUpTo(pairs, c, threshold, sqrt, i, j)
    requires forall x :: x in pairs' ==> pairs'[x] != [] || (x in pairs && pairs[x] == [])
    requires forall x, e :: Linked(pairs', x, e) <==>
      (Linked(pairs, x, e) ||
       (x == c[i].id && e == Edge(c[j].id, PairScore(c, i, j, sqrt))) ||
       (x == c[j].id && e == Edge(c[i].id, PairScore(c, i, j, sqrt))))
    ensures SoundSoFar(pairs', c, threshold, sqrt) && CompleteUpTo(pairs', c, threshold, sqrt, i, j + 1)
  {
    AddPairSound(c, i, j, pairs, pairs', threshold, sqrt);
    AddPairComplete(c, i, j, pairs, pairs', threshold, sqrt);
  }

  lemma AddPairSound(c: seq<ResponseRecord>, i: nat, j: nat, pairs: PairMap, pairs': PairMap,
                     threshold: real, sqrt: real -> real)
    requires i < j < |c| && PairScore(c, i, j, sqrt) >= threshold
    requires SoundSoFar(pairs, c, threshold, sqrt)
    requires forall x :: x in pairs' ==> pairs'[x] != [] || (x in pairs && pairs[x] == [])
    requires forall x, e :: Linked(pairs', x, e) ==>
      (Linked(pairs, x, e) ||
       (x == c[i].id && e == Edge(c[j].id, PairScore(c, i, j, sqrt))) ||
       (x == c[j].id && e == Edge(c[i].id, PairScore(c, i, j, sqrt))))
    ensures SoundSoFar(pairs', c, threshold, sqrt)
  {
    var s := PairScore(c, i, j, sqrt);
    PairScoreSymmetric(c, i, j, sqrt);
    forall x, e | x in pairs' && e in pairs'[x]
      ensures IsEdge(c, threshold, sqrt, x, e)
    {
      assert Linked(pairs', x, e);
      if Linked(pairs, x, e) {
      } else if x == c[i].id && e == Edge(c[j].id, s) {
        assert IsEdge(c, threshold, sqrt, x, e) by {
          assert c[i].id == x && c[j].id == e.id && e.score == PairScore(c, i, j, sqrt);
        }
      } else {
        assert IsEdge(c, threshold, sqrt, x, e) by {
          assert c[j].id == x && c[i].id == e.id && e.score == PairScore(c, j, i, sqrt);
        }
      }
    }
  }

  lemma AddPairComplete(c: seq<ResponseRecord>, i: nat, j: nat, pairs: PairMap, pairs': PairMap,
                        threshold: real, sqrt: real -> real)
    requires i < j < |c|
    requires CompleteUpTo(pairs, c, threshold, sqrt, i, j)
    requires forall x, e :: Linked(pairs, x, e) ==> Linked(pairs', x, e)
    requires Linked(pairs', c[i].id, Edge(c[j].id, PairScore(c, i, j, sqrt)))
    requires Linked(pairs', c[j].id, Edge(c[i].id, PairScore(c, i, j, sqrt)))
    ensures CompleteUpTo(pairs', c, threshold, sqrt, i, j + 1)
  {
    forall a, b | 0 <= a < b < |c| && Before(a, b, i, j + 1) && PairScore(c, a, b, sqrt) >= threshold
      ensures Linked(pairs', c[a].id, Edge(c[b].id, PairScore(c, a, b, sqrt)))
      ensures Linked(pairs', c[b].id, Edge(c[a].id, PairScore(c, a, b, sqrt)))
    {
      if Before(a, b, i, j) {
        assert Linked(pairs, c[a].id, Edge(c[b].id, PairScore(c, a, b, sqrt)));
        assert Linked(pairs, c[b].id, Edge(c[a].id, PairScore(c, a, b, sqrt)));
      } else {
        assert a == i && b == j;
      }
    }
  }

  /** The map is symmetric, and every listed score reaches the threshold. */
  lemma DescribedIsSymmetric(pairs: PairMap, c: seq<ResponseRecord>, threshold: real, sqrt: real -> real)
    requires Describes(pairs, c, threshold, sqrt)
    ensures Symmetric(pairs)
    ensures forall x, e :: x in pairs && e in pairs[x] ==> e.score >= threshold
  {
    forall x, e | x in pairs && e in pairs[x]
      ensures e.id in pairs && Edge(x, e.score) in pairs[e.id] && e.score >= threshold
    {
      var a, b :| 0 <= a < |c| && 0 <= b < |c| && a != b && c[a].id == x && c[b].id == e.id &&
        e.score == PairScore(c, a, b, sqrt) && e.score >= threshold;
      if b < a {
        PairScoreSymmetric(c, a, b, sqrt);
      }
    }
  }

  // ------------------------------------------------------------- clusters

  /** Two distinct completed responses with ids `x` and `y` score at or above the threshold. */
  ghost predicate Similar(c: seq<ResponseRecord>, threshold: real, sqrt: real -> real, x: string, y: string) {
    exists a, b :: 0 <= a < |c| && 0 <= b < |c| && a != b && c[a].id == x && c[b].id == y &&
      PairScore(c, a, b, sqrt) >= threshold
  }

  ghost predicate IsCompletedId(c: seq<ResponseRecord>, x: string) {
    exists a :: 0 <= a < |c| && c[a].id == x
  }

  /** Every response similar to a member is a member. */
  ghost predicate SimilarClosed(c: seq<ResponseRecord>, threshold: real, sqrt: real -> real, cluster: seq<string>) {
    forall x, y :: x in cluster && Similar(c, threshold, sqrt, x, y) ==> y in cluster
  }

  /** Every member after the first is similar to an earlier member. */
  ghost predicate SimilarChain(c: seq<ResponseRecord>, threshold: real, sqrt: real -> real, cluster: seq<string>) {
    forall k :: 0 < k < |cluster| ==> SimilarToEarlier(c, threshold, sqrt, cluster, k)
  }

  ghost predicate SimilarToEarlier(c: seq<ResponseRecord>, threshold: real, sqrt: real -> real, cluster: seq<string>, k: nat)
    requires k < |cluster|
  {
    exists m :: 0 <= m < k && Similar(c, threshold, sqrt, cluster[m], cluster[k])
  }

  /** In a map that `Describes` the responses, `y` is listed under `x` exactly when the two are similar. */
  lemma AdjacentIffSimilar(pairs: PairMap, c: seq<ResponseRecord>, threshold: real, sqrt: real -> real, x: string, y: string)
    requires Describes(pairs, c, threshold, sqrt)
    ensures Adjacent(pairs, x, y) <==> Similar(c, threshold, sqrt, x, y)
  {
    if Adjacent(pairs, x, y) {
      var k :| 0 <= k < |pairs[x]| && Ids(pairs[x])[k] == y;
      var e := pairs[x][k];
      assert IsEdge(c, threshold, sqrt, x, e);
    }
    if Similar(c, threshold, sqrt, x, y) {
      var a, b :| 0 <= a < |c| && 0 <= b < |c| && a != b && c[a].id == x && c[b].id == y &&
        PairScore(c, a, b, sqrt) >= threshold;
      PairScoreSymmetric(c, a, b, sqrt);
      var e := Edge(y, PairScore(c, a, b, sqrt));
      assert Linked(pairs, x, e);
      InIds(pairs[x], e);
    }
  }

  /** A connected component of the pair map is one of the similarity relation. */
  lemma ComponentIsSimilarCluster(pairs: PairMap, c: seq<ResponseRecord>, threshold: real, sqrt: real -> real,
                                  cluster: seq<string>)
    requires Describes(pairs, c, threshold, sqrt)
    requires Closed(pairs, cluster) && Spanning(pairs, cluster)
    ensures SimilarClosed(c, threshold, sqrt, cluster) && SimilarChain(c, threshold, sqrt, cluster)
  {
    forall x, y | x in cluster && Similar(c, threshold, sqrt, x, y)
      ensures y in cluster
    {
      AdjacentIffSimilar(pairs, c, threshold, sqrt, x, y);
    }
    forall k | 0 < k < |cluster|
      ensures SimilarToEarlier(c, threshold, sqrt, cluster, k)
    {
      assert FoundFromEarlier(pairs, cluster, k);
      var m :| 0 <= m < k && Adjacent(pairs, cluster[m], cluster[k]);
      AdjacentIffSimilar(pairs, c, threshold, sqrt, cluster[m], cluster[k]);
    }
  }

  /** A key of a described map is the id of a completed response. */
  lemma KeyIsCompletedId(pairs: PairMap, c: seq<ResponseRecord>, threshold: real, sqrt: real -> real, x: string)
    requires Describes(pairs, c, threshold, sqrt) && x in pairs
    ensures IsCompletedId(c, x)
  {
    assert IsEdge(c, threshold, sqrt, x, pairs[x][0]);
  }

  /**
   * `findSimilarityClusters`: the clusters are disjoint, duplicate-free, hold at
   * least two completed responses each, and are whole components of the
   * similarity relation between completed responses; every response similar to
   * a response with another id is in a cluster.
   */
  method FindSimilarityClusters(responses: seq<ResponseRecord>, threshold: real, sqrt: real -> real)
    returns (clusters: seq<seq<string>>)
    ensures NoDup(Members(clusters))
    ensures forall x :: x in Members(clusters) ==> IsCompletedId(Completed(responses), x)
    ensures forall a :: 0 <= a < |clusters| ==>
      (|clusters[a]| >= 2 &&
       SimilarClosed(Completed(responses), threshold, sqrt, clusters[a]) &&
       SimilarChain(Completed(responses), threshold, sqrt, clusters[a]))
    ensures forall x, y :: x != y && Similar(Completed(responses), threshold, sqrt, x, y) ==> x in Members(clusters)
  {
    ghost var c := Completed(responses);
    var pairs, keys := FindSimilarPairs(responses, threshold, sqrt);
    DescribedIsSymmetric(pairs, c, threshold, sqrt);
    clusters := Components(pairs, keys);
    forall x | x in Members(clusters)
      ensures IsCompletedId(c, x)
    {
      KeyIsCompletedId(pairs, c, threshold, sqrt, x);
    }
    forall a | 0 <= a < |clusters|
      ensures SimilarClosed(c, threshold, sqrt, clusters[a]) && SimilarChain(c, threshold, sqrt, clusters[a])
    {
      ComponentIsSimilarCluster(pairs, c, threshold, sqrt, clusters[a]);
    }
    forall x, y | x != y && Similar(c, threshold, sqrt, x, y)
      ensures x in Members(clusters)
    {
      AdjacentIffSimilar(pairs, c, threshold, sqrt, x, y);
      assert HasOtherNeighbour(pairs, x);
    }
  }

  // ------------------------------------------------------- a single pair

  /** The score of two texts as `getSimilarityScore` computes it: over their own two-text vocabulary. */
  function TextScore(text1: string, text2: string, sqrt: real -> real): real {
    var vs := TermVectors([text1, text2]);
    Cosine(vs[0], vs[1], sqrt).value
  }

  /**
   * `getSimilarityScore`: nothing unless both responses are done; then the
   * score of their texts if it reaches the threshold, and nothing otherwise.
   */
  function GetSimilarityScore(response1: ResponseRecord, response2: ResponseRecord, threshold: real, sqrt: real -> real)
    : (r: Option<real>)
    ensures r.Some? <==>
      (response1.status == Done && response2.status == Done && TextScore(response1.text, response2.text, sqrt) >= threshold)
    ensures r.Some? ==> r.value == TextScore(response1.text, response2.text, sqrt) && r.value >= threshold
  {
    if response1.status != Done || response2.status != Done then None
    else
      var vectors := TermVectors([response1.text, response2.text]);
      if |vectors| < 2 then None
      else
        var similarity := Cosine(vectors[0], vectors[1], sqrt).value;
        if similarity >= threshold then Some(similarity) else None
  }

  /** With a positive threshold, two responses that share no token have no score. */
  lemma DisjointResponsesHaveNoScore(response1: ResponseRecord, response2: ResponseRecord, threshold: real, sqrt: real -> real)
    requires threshold > 0.0
    requires forall t :: t in Tokenize(response1.text) ==> t !in Tokenize(response2.text)
    ensures GetSimilarityScore(response1, response2, threshold, sqrt) == None
  {
    var texts := [response1.text, response2.text];
    DisjointTokensScoreZero(texts, 0, 1, sqrt);
  }

  /** With a positive threshold, two completed responses that share no token are never paired. */
  lemma DisjointResponsesNotSimilar(c: seq<ResponseRecord>, threshold: real, sqrt: real -> real, a: nat, b: nat)
    requires threshold > 0.0 && a < |c| && b < |c|
    requires forall t :: t in Tokenize(c[a].text) ==> t !in Tokenize(c[b].text)
    ensures PairScore(c, a, b, sqrt) < threshold
  {
    DisjointTokensScoreZero(Texts(c), a, b, sqrt);
  }
}
