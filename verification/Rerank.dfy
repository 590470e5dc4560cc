/** Reading a reranker's answer back into document order. */
module Rerank {
  import opened Options

  /** One result: the document it is about and the score it got, in score order. */
  datatype Result = Result(index: int, score: real)

  /** The score the last result about a document gives it. */
  function LastScore(results: seq<Result>, i: int): Option<real> {
    if results == [] then None
    else
      var last := results[|results| - 1];
      if last.index == i then Some(last.score) else LastScore(results[..|results| - 1], i)
  }

  ghost predicate InRange(results: seq<Result>, n: nat) {
    forall r :: r in results ==> 0 <= r.index < n
  }

  ghost predicate Names(results: seq<Result>, i: int) {
    exists r :: r in results && r.index == i
  }

  ghost predicate Covers(results: seq<Result>, n: nat) {
    forall i :: 0 <= i < n ==> Names(results, i)
  }

  /** Each document exactly once. */
  ghost predicate IsRanking(results: seq<Result>, n: nat) {
    && InRange(results, n) && Covers(results, n)
    && forall j, k :: 0 <= j < k < |results| ==> results[j].index != results[k].index
  }

  lemma {:induction false} LastScoreExists(results: seq<Result>, i: int)
    ensures LastScore(results, i).Some? <==> Names(results, i)
    decreases |results|
  {
    if results == [] {
    } else {
      var front, last := results[..|results| - 1], results[|results| - 1];
      assert results == front + [last];
      LastScoreExists(front, i);
    }
  }

  /** One score per document in document order, or a refusal. */
  method ParseScores(results: seq<Result>, n: nat) returns (scores: Option<seq<real>>)
    ensures scores.Some? <==> InRange(results, n) && Covers(results, n)
    ensures scores.Some? ==>
      |scores.value| == n && forall i :: 0 <= i < n ==> LastScore(results, i) == Some(scores.value[i])
  {
    var out, seen := new real[n](_ => 0.0), new bool[n](_ => false);
    for k := 0 to |results|
      invariant InRange(results[..k], n)
      invariant forall i :: 0 <= i < n ==> seen[i] == LastScore(results[..k], i).Some?
      invariant forall i :: 0 <= i < n && seen[i] ==> LastScore(results[..k], i) == Some(out[i])
    {
      var r := results[k];
      assert results[..k+1] == results[..k] + [r];
      assert results[..k+1][..k] == results[..k];
      if r.index < 0 || r.index >= n {
        assert r in results;
        return None;
      }
      out[r.index], seen[r.index] := r.score, true;
    }
    assert results[..|results|] == results;
    for i := 0 to n
      invariant forall j :: 0 <= j < i ==> seen[j]
      invariant forall j :: 0 <= j < n ==> seen[j] == LastScore(results, j).Some?
      invariant forall j :: 0 <= j < n && seen[j] ==> LastScore(results, j) == Some(out[j])
    {
      LastScoreExists(results, i);
      if !seen[i] {
        return None;
      }
    }
    forall i | 0 <= i < n ensures Names(results, i) {
      LastScoreExists(results, i);
    }
    scores := Some(out[..]);
  }

  /** On a ranking, reading is the inverse of writing: each result's score ends up at the
      document the result names. */
  lemma {:induction false} ReadsBack(results: seq<Result>, n: nat, k: nat)
    requires IsRanking(results, n) && k < |results|
    ensures LastScore(results, results[k].index) == Some(results[k].score)
  {
    LastOf(results, k);
  }

  lemma {:induction false} LastOf(results: seq<Result>, k: nat)
    requires k < |results| && forall j :: k < j < |results| ==> results[j].index != results[k].index
    ensures LastScore(results, results[k].index) == Some(results[k].score)
    decreases |results|
  {
    if k == |results| - 1 {
    } else {
      var front := results[..|results| - 1];
      assert forall j :: k < j < |front| ==> front[j] == results[j];
      LastOf(front, k);
    }
  }

  /** A document named more than once keeps the score of its lowest ranked result. */
  lemma RepeatKeepsTheLast(results: seq<Result>, again: Result)
    ensures LastScore(results + [again], again.index) == Some(again.score)
    ensures forall i :: i != again.index ==> LastScore(results + [again], i) == LastScore(results, i)
  {
    assert (results + [again])[..|results|] == results;
  }
}
