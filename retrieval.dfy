/**
 * Hybrid retrieval (rag/retriever.py, agent/chat.py, agent/agent.py): the
 * vector-store hits and the BM25 hits are merged into one list of distinct
 * page contents, in order of first appearance, vector hits first; the
 * agent's variant then keeps the `k` best of them by reranker score.
 *
 * A document is modelled by its page content. The vector store, the BM25
 * index and the reranker's scores are inputs.
 */
module Retrieval {
  import opened Common

  /** The distinct elements of `s` in order of first appearance. */
  function FirstSeen(s: seq<string>): (r: seq<string>)
    ensures forall x :: x in r <==> x in s
    ensures NoDuplicates(r)
    ensures |r| <= |s|
  {
    if s == [] then []
    else
      var p := FirstSeen(s[..|s| - 1]);
      var x := s[|s| - 1];
      if x in p then p else p + [x]
  }

  /**
   * The merge loop of `HybridRetriever._get_relevant_documents`: walk the
   * vector hits then the BM25 hits, keeping a content the first time it is seen.
   */
  method Merge(vectorDocs: seq<string>, bm25Docs: seq<string>) returns (all: seq<string>)
    ensures all == FirstSeen(vectorDocs + bm25Docs)
  {
    var docs := vectorDocs + bm25Docs;
    all := [];
    var seen: set<string> := {};
    var i := 0;
    while i < |docs|
      invariant 0 <= i <= |docs|
      invariant all == FirstSeen(docs[..i])
      invariant forall x :: x in seen <==> x in all
    {
      assert docs[..i + 1][..i] == docs[..i];
      if docs[i] !in seen {
        all := all + [docs[i]];
        seen := seen + {docs[i]};
      }
      i := i + 1;
    }
    assert docs[..i] == docs;
  }

  /** Index of the first occurrence of `x` in `s`. */
  function FirstIndex(s: seq<string>, x: string): (i: nat)
    requires x in s
    ensures i < |s| && s[i] == x && x !in s[..i]
  {
    if s[0] == x then 0 else 1 + FirstIndex(s[1..], x)
  }

  lemma {:induction false} FirstIndexOfPrefix(s: seq<string>, m: nat, x: string)
    requires m <= |s| && x in s[..m]
    ensures FirstIndex(s, x) == FirstIndex(s[..m], x)
  {
    if s[0] != x {
      assert s[1..][..m - 1] == s[..m][1..];
      FirstIndexOfPrefix(s[1..], m - 1, x);
    }
  }

  /**
   * First-occurrence order: of two merged contents, the one listed earlier
   * first appeared earlier in the concatenated hits.
   */
  lemma {:induction false} FirstSeenOrder(s: seq<string>)
    ensures var u := FirstSeen(s);
      forall i, j :: 0 <= i < j < |u| ==> FirstIndex(s, u[i]) < FirstIndex(s, u[j])
  {
    if s != [] {
      FirstSeenOrder(s[..|s| - 1]);
      var u := FirstSeen(s);
      forall i, j | 0 <= i < j < |u| ensures FirstIndex(s, u[i]) < FirstIndex(s, u[j]) {
        FirstSeenOrderStep(s, s[..|s| - 1], FirstSeen(s[..|s| - 1]), i, j);
      }
    }
  }

  /** The step of `FirstSeenOrder`: one pair of positions, given the order for all but the last hit. */
  lemma FirstSeenOrderStep(s: seq<string>, init: seq<string>, p: seq<string>, i: nat, j: nat)
    requires s != [] && init == s[..|s| - 1] && p == FirstSeen(init)
    requires forall a, b :: 0 <= a < b < |p| ==> FirstIndex(init, p[a]) < FirstIndex(init, p[b])
    requires i < j < |FirstSeen(s)|
    ensures FirstIndex(s, FirstSeen(s)[i]) < FirstIndex(s, FirstSeen(s)[j])
  {
    var n := |s| - 1;
    var u := FirstSeen(s);
    assert u == p || (u == p + [s[n]] && s[n] !in init);
    assert u[i] == p[i] && u[i] in init;
    FirstIndexOfPrefix(s, n, u[i]);
    if j < |p| {
      assert u[j] == p[j] && u[j] in init;
      assert FirstIndex(init, p[i]) < FirstIndex(init, p[j]);
      FirstIndexOfPrefix(s, n, u[j]);
    } else {
      assert u[j] == s[n] && u[j] !in init;
      assert FirstIndex(s, u[j]) == n;
    }
  }

  /** A list without repeats is its own merge. */
  lemma {:induction false} FirstSeenOfDistinct(s: seq<string>)
    requires NoDuplicates(s)
    ensures FirstSeen(s) == s
  {
    if s != [] {
      var n := |s| - 1;
      assert NoDuplicates(s[..n]);
      FirstSeenOfDistinct(s[..n]);
      assert s[n] !in s[..n];
      assert s[..n] + [s[n]] == s;
    }
  }

  /** Example: vector hits [A, B] and BM25 hits [B, C] merge to [A, B, C]. */
  lemma MergeExample(a: string, b: string, c: string)
    requires a != b && b != c && a != c
    ensures FirstSeen([a, b] + [b, c]) == [a, b, c]
  {
    var s := [a, b] + [b, c];
    assert [a][..0] == [] && FirstSeen([a]) == [a];
    assert [a, b][..1] == [a] && FirstSeen([a, b]) == [a, b];
    assert [a, b, b][..2] == [a, b] && FirstSeen([a, b, b]) == [a, b];
    assert s == [a, b, b, c] && s[..3] == [a, b, b];
  }

  /**
   * The merged list has no repeated content, holds exactly the contents of
   * both hit lists, is no longer than both together, and is empty when both are.
   */
  lemma MergeProperties(vectorDocs: seq<string>, bm25Docs: seq<string>)
    ensures var r := FirstSeen(vectorDocs + bm25Docs);
      && NoDuplicates(r)
      && (forall x :: x in r <==> x in vectorDocs || x in bm25Docs)
      && |r| <= |vectorDocs| + |bm25Docs|
      && (vectorDocs == [] && bm25Docs == [] ==> r == [])
      && (forall i :: 0 <= i < |vectorDocs| ==> vectorDocs[i] in r)
  {
    var r := FirstSeen(vectorDocs + bm25Docs);
    forall x ensures x in r <==> x in vectorDocs || x in bm25Docs {
      assert x in vectorDocs + bm25Docs <==> x in vectorDocs || x in bm25Docs;
    }
  }

  /** The retriever's configuration: `k` for the vector search, and the BM25 index's own `k`. */
  datatype HybridRetriever = HybridRetriever(k: int, bm25K: int)

  /** The hits a search returns; the reranker and embeddings are outside the model. */
  type Search = (string, int) -> seq<string>

  /** `create_hybrid_retriever`: both searches return up to 15 documents. */
  const HybridK: int := 15

  function CreateHybridRetriever(): (h: HybridRetriever)
    ensures h.k == HybridK && h.bm25K == HybridK
  {
    HybridRetriever(HybridK, HybridK)
  }

  /** rag/retriever.py's `_get_relevant_documents`: vector search with `k`, BM25 with its own `k`, then the merge. */
  method GetRelevantDocuments(h: HybridRetriever, query: string, vectorStore: Search, bm25: Search)
    returns (docs: seq<string>)
    ensures docs == FirstSeen(vectorStore(query, h.k) + bm25(query, h.bm25K))
  {
    docs := Merge(vectorStore(query, h.k), bm25(query, h.bm25K));
  }

  /** A search that honours its `k` returns at most `k` hits. */
  ghost predicate HonoursK(search: Search)
  {
    forall q, k :: |search(q, k)| <= (if k < 0 then 0 else k)
  }

  /**
   * With searches that honour their `k`, the retriever that
   * `create_hybrid_retriever` builds returns at most 30 distinct contents.
   */
  lemma CreatedRetrieverBound(query: string, vectorStore: Search, bm25: Search)
    requires HonoursK(vectorStore) && HonoursK(bm25)
    ensures var h := CreateHybridRetriever();
      var r := FirstSeen(vectorStore(query, h.k) + bm25(query, h.bm25K));
      |r| <= 2 * HybridK && NoDuplicates(r)
  {
    var h := CreateHybridRetriever();
    assert |vectorStore(query, h.k)| <= HybridK;
    assert |bm25(query, h.bm25K)| <= HybridK;
  }

  /** Python's `s[:k]` for any integer `k`: a negative `k` drops that many from the end. */
  function PyTake<T>(s: seq<T>, k: int): (r: seq<T>)
    ensures |r| <= |s| && r == s[..|r|]
    ensures k >= 0 ==> |r| == (if k < |s| then k else |s|)
    ensures k < 0 ==> |r| == (if -k < |s| then |s| + k else 0)
  {
    if k >= 0 then Take(s, k)
    else if -k < |s| then s[..|s| + k]
    else []
  }

  function Reversed<T>(s: seq<T>): (r: seq<T>)
    ensures |r| == |s|
    ensures forall i :: 0 <= i < |s| ==> r[i] == s[|s| - 1 - i]
  {
    if s == [] then [] else [s[|s| - 1]] + Reversed(s[..|s| - 1])
  }

  /** Every index is below the number of scores. */
  ghost predicate InRange(scores: seq<real>, s: seq<nat>)
  {
    forall k :: 0 <= k < |s| ==> s[k] < |scores|
  }

  /** Indices in ascending order of score. */
  ghost predicate SortedBy(scores: seq<real>, s: seq<nat>)
    requires InRange(scores, s)
  {
    forall a, b :: 0 <= a < b < |s| ==> scores[s[a]] <= scores[s[b]]
  }

  /**
   * What `np.argsort(scores)` returns: every index exactly once, in
   * ascending order of score. Ties fall in an order numpy does not fix.
   */
  ghost predicate IsAscendingArgsort(scores: seq<real>, order: seq<nat>)
  {
    && |order| == |scores|
    && InRange(scores, order)
    && NoDuplicates(order)
    && (forall j :: 0 <= j < |scores| ==> j in order)
    && SortedBy(scores, order)
  }

  /** Insert index `i` into an ascending order, after every index of equal or lower score. */
  function InsertByScore(scores: seq<real>, sorted: seq<nat>, i: nat): (r: seq<nat>)
    requires i < |scores| && InRange(scores, sorted)
    ensures |r| == |sorted| + 1 && InRange(scores, r)
    ensures forall x :: x in r <==> x in sorted || x == i
  {
    if sorted == [] then [i]
    else if scores[sorted[0]] > scores[i] then [i] + sorted
    else [sorted[0]] + InsertByScore(scores, sorted[1..], i)
  }

  lemma {:induction false} InsertKeepsSorted(scores: seq<real>, sorted: seq<nat>, i: nat)
    requires i < |scores| && InRange(scores, sorted) && SortedBy(scores, sorted)
    ensures SortedBy(scores, InsertByScore(scores, sorted, i))
  {
    if sorted != [] {
      var r := InsertByScore(scores, sorted, i);
      if scores[sorted[0]] > scores[i] {
        forall a, b | 0 <= a < b < |r| ensures scores[r[a]] <= scores[r[b]] {
          if a == 0 {
            assert scores[sorted[0]] <= scores[sorted[b - 1]];
          } else {
            assert r[a] == sorted[a - 1] && r[b] == sorted[b - 1];
          }
        }
      } else {
        var rest := InsertByScore(scores, sorted[1..], i);
        InsertKeepsSorted(scores, sorted[1..], i);
        forall a, b | 0 <= a < b < |r| ensures scores[r[a]] <= scores[r[b]] {
          if a == 0 {
            var x := rest[b - 1];
            assert x in rest;
            if x != i {
              var k :| 0 <= k < |sorted[1..]| && sorted[1..][k] == x;
              assert x == sorted[k + 1];
            }
          } else {
            assert r[a] == rest[a - 1] && r[b] == rest[b - 1];
          }
        }
      }
    }
  }

  lemma {:induction false} InsertKeepsDistinct(scores: seq<real>, sorted: seq<nat>, i: nat)
    requires i < |scores| && InRange(scores, sorted) && NoDuplicates(sorted) && i !in sorted
    ensures NoDuplicates(InsertByScore(scores, sorted, i))
  {
    if sorted != [] && scores[sorted[0]] <= scores[i] {
      assert NoDuplicates(sorted[1..]);
      InsertKeepsDistinct(scores, sorted[1..], i);
      assert sorted[0] !in sorted[1..];
    }
  }

  /** One ascending argsort: the indices below `n` inserted in turn, so ties keep index order. */
  function StableArgsort(scores: seq<real>, n: nat): (r: seq<nat>)
    requires n <= |scores|
    ensures |r| == n && InRange(scores, r) && NoDuplicates(r) && SortedBy(scores, r)
    ensures forall x: nat :: x in r <==> x < n
  {
    if n == 0 then []
    else
      var prev := StableArgsort(scores, n - 1);
      InsertKeepsSorted(scores, prev, n - 1);
      InsertKeepsDistinct(scores, prev, n - 1);
      InsertByScore(scores, prev, n - 1)
  }

  /** Every score list has an ascending argsort, so the reranker's precondition can always be met. */
  lemma ArgsortExists(scores: seq<real>)
    ensures IsAscendingArgsort(scores, StableArgsort(scores, |scores|))
  {
  }

  /** `np.argsort(scores)[::-1][:top_k]`: the indices the reranker keeps, best first. */
  function RankedIndices(order: seq<nat>, topK: int): seq<nat>
  {
    PyTake(Reversed(order), topK)
  }

  /**
   * rerank_documents once the scores are known: the documents at the
   * indices of the `top_k` highest scores, highest first.
   */
  function Rerank(documents: seq<string>, scores: seq<real>, order: seq<nat>, topK: int): (r: seq<string>)
    requires |scores| == |documents| && IsAscendingArgsort(scores, order)
    ensures |r| == |RankedIndices(order, topK)|
    ensures forall i :: 0 <= i < |r| ==> r[i] == documents[RankedIndices(order, topK)[i]]
  {
    var idx := RankedIndices(order, topK);
    seq(|idx|, i requires 0 <= i < |idx| => documents[idx[i]])
  }

  /**
   * The reranker keeps at most `top_k` documents (exactly `min(top_k, n)`
   * for a non-negative `top_k`), from distinct positions, in non-increasing
   * score order, and none it drops scores higher than one it keeps.
   */
  lemma RerankSelection(documents: seq<string>, scores: seq<real>, order: seq<nat>, topK: int)
    requires |scores| == |documents| && IsAscendingArgsort(scores, order)
    ensures var idx := RankedIndices(order, topK);
      && |idx| <= (if topK < 0 then |documents| else topK)
      && (topK >= 0 ==> |idx| == (if topK < |documents| then topK else |documents|))
      && NoDuplicates(idx)
      && (forall i :: 0 <= i < |idx| ==> idx[i] < |documents|)
      && (forall a, b :: 0 <= a < b < |idx| ==> scores[idx[a]] >= scores[idx[b]])
      && (forall a, j :: 0 <= a < |idx| && 0 <= j < |documents| && j !in idx ==> scores[idx[a]] >= scores[j])
  {
    var rev := Reversed(order);
    var idx := RankedIndices(order, topK);
    var n := |order|;
    assert forall a :: 0 <= a < |idx| ==> idx[a] == order[n - 1 - a];
    forall a, b | 0 <= a < b < |idx| ensures idx[a] != idx[b] && scores[idx[a]] >= scores[idx[b]] {
      assert idx[a] == order[n - 1 - a] && idx[b] == order[n - 1 - b];
    }
    forall a, j | 0 <= a < |idx| && 0 <= j < |documents| && j !in idx ensures scores[idx[a]] >= scores[j] {
      var p := SlotOf(order, j);
      KeptSlot(order, topK, p);
      assert n - 1 - p >= |idx|;
      assert scores[order[p]] <= scores[order[n - 1 - a]];
    }
  }

  /** A slot among the last `|RankedIndices|` of the argsort is kept. */
  lemma KeptSlot(order: seq<nat>, topK: int, p: nat)
    requires p < |order|
    ensures var idx := RankedIndices(order, topK);
      |order| - 1 - p < |idx| ==> order[p] in idx
  {
    var idx := RankedIndices(order, topK);
    if |order| - 1 - p < |idx| {
      assert idx[|order| - 1 - p] == order[p];
    }
  }

  /** Where index `j` sits in an argsort that lists every index. */
  function SlotOf(order: seq<nat>, j: nat): (p: nat)
    requires j in order
    ensures p < |order| && order[p] == j
  {
    if order[0] == j then 0 else 1 + SlotOf(order[1..], j)
  }

  /** Distinct positions of a list without repeats hold distinct contents. */
  lemma DistinctPicks(documents: seq<string>, idx: seq<nat>)
    requires NoDuplicates(documents) && NoDuplicates(idx)
    requires forall i :: 0 <= i < |idx| ==> idx[i] < |documents|
    ensures NoDuplicates(seq(|idx|, i requires 0 <= i < |idx| => documents[idx[i]]))
  {
  }

  /**
   * agent/agent.py's `HybridRetriever`: the merged hits reranked with the
   * retriever's own `k`. Its result has at most `k` documents and no
   * repeated content, and each of them is one of the hits.
   */
  lemma AgentRetrieverResult(k: int, vectorDocs: seq<string>, bm25Docs: seq<string>, scores: seq<real>, order: seq<nat>)
    requires |scores| == |FirstSeen(vectorDocs + bm25Docs)| && IsAscendingArgsort(scores, order)
    ensures var r := Rerank(FirstSeen(vectorDocs + bm25Docs), scores, order, k);
      && (k >= 0 ==> |r| <= k)
      && NoDuplicates(r)
      && (forall x :: x in r ==> x in vectorDocs || x in bm25Docs)
  {
    var merged := FirstSeen(vectorDocs + bm25Docs);
    RerankSelection(merged, scores, order, k);
    DistinctPicks(merged, RankedIndices(order, k));
    MergeProperties(vectorDocs, bm25Docs);
    var r := Rerank(merged, scores, order, k);
    forall x | x in r ensures x in vectorDocs || x in bm25Docs {
      var i :| 0 <= i < |r| && r[i] == x;
      assert x in merged;
    }
  }

  /**
   * The module-level reranker of agent/agent.py: the model and tokenizer
   * globals, loaded on first use. `loads` counts calls of `initialize_reranker`.
   */
  class Reranker {
    var modelLoaded: bool
    var tokenizerLoaded: bool
    var loads: nat

    constructor ()
      ensures !modelLoaded && !tokenizerLoaded && loads == 0
    {
      modelLoaded := false;
      tokenizerLoaded := false;
      loads := 0;
    }

    /**
     * rerank_documents: initialise the model when either global is unset,
     * then rank. `scores` and `order` are what the model and numpy return.
     */
    method RerankDocuments(documents: seq<string>, scores: seq<real>, order: seq<nat>, topK: int)
      returns (r: seq<string>)
      requires |scores| == |documents| && IsAscendingArgsort(scores, order)
      modifies this
      ensures modelLoaded && tokenizerLoaded
      ensures loads == old(loads) + (if old(modelLoaded) && old(tokenizerLoaded) then 0 else 1)
      ensures r == Rerank(documents, scores, order, topK)
    {
      if !modelLoaded || !tokenizerLoaded {
        tokenizerLoaded := true;
        modelLoaded := true;
        loads := loads + 1;
      }
      r := Rerank(documents, scores, order, topK);
    }

    /** agent/agent.py's `_get_relevant_documents`: merge the hits, then rerank with `k`. */
    method AgentGetRelevantDocuments(h: HybridRetriever, query: string, vectorStore: Search, bm25: Search,
                                     scores: seq<real>, order: seq<nat>) returns (docs: seq<string>)
      requires |scores| == |FirstSeen(vectorStore(query, h.k) + bm25(query, h.bm25K))|
      requires IsAscendingArgsort(scores, order)
      modifies this
      ensures modelLoaded && tokenizerLoaded
      ensures loads == old(loads) + (if old(modelLoaded) && old(tokenizerLoaded) then 0 else 1)
      ensures docs == Rerank(FirstSeen(vectorStore(query, h.k) + bm25(query, h.bm25K)), scores, order, h.k)
    {
      var merged := Merge(vectorStore(query, h.k), bm25(query, h.bm25K));
      docs := RerankDocuments(merged, scores, order, h.k);
    }
  }
}
