/**
 * Selection of the k highest scores, in descending order. Equal scores
 * are ordered by position (the earlier index first): a deterministic
 * tie-break chosen by this model.
 */
module TopKSelection {
  import opened Wrappers

  /** Index i ranks strictly before index j. */
  predicate Precedes(scores: seq<int>, i: nat, j: nat)
  {
    i < |scores| && j < |scores| && (scores[i] > scores[j] || (scores[i] == scores[j] && i < j))
  }

  ghost predicate Ranked(scores: seq<int>, r: seq<nat>)
  {
    forall a, b :: 0 <= a < b < |r| ==> Precedes(scores, r[a], r[b])
  }

  ghost predicate InRange(r: seq<nat>, n: nat)
  {
    forall a :: 0 <= a < |r| ==> r[a] < n
  }

  /** Insert index i into a ranking, before the first index it precedes. */
  function Insert(scores: seq<int>, i: nat, r: seq<nat>): (res: seq<nat>)
    requires i < |scores| && InRange(r, |scores|)
    ensures |res| == |r| + 1 && InRange(res, |scores|)
    ensures forall x :: x in res <==> x == i || x in r
    ensures Ranked(scores, r) && i !in r ==> Ranked(scores, res)
  {
    if |r| == 0 then [i]
    else if Precedes(scores, i, r[0]) then [i] + r
    else
      var rest := Insert(scores, i, r[1..]);
      assert Ranked(scores, r) && i !in r ==> forall y :: y in rest ==> Precedes(scores, r[0], y) by {
        if Ranked(scores, r) && i !in r {
          forall y | y in rest ensures Precedes(scores, r[0], y) {
            if y != i {
              var b :| 0 <= b < |r[1..]| && r[1..][b] == y;
              assert r[b + 1] == y;
            }
          }
        }
      }
      [r[0]] + rest
  }

  /** The first n indices, ranked. */
  function Ranking(scores: seq<int>, n: nat): (r: seq<nat>)
    requires n <= |scores|
    ensures |r| == n && InRange(r, |scores|) && Ranked(scores, r)
    ensures forall x :: x in r <==> 0 <= x < n
  {
    if n == 0 then [] else Insert(scores, n - 1, Ranking(scores, n - 1))
  }

  /** The indices of the min(k, |scores|) highest scores, best first. */
  function TopK(scores: seq<int>, k: nat): (r: seq<nat>)
    ensures |r| == Min(k, |scores|) && InRange(r, |scores|)
  {
    Ranking(scores, |scores|)[..Min(k, |scores|)]
  }

  /**
   * TopK returns distinct indices in non-increasing order of score, and
   * no index it leaves out scores strictly higher than one it selects.
   */
  lemma TopKCorrect(scores: seq<int>, k: nat)
    ensures forall a, b :: 0 <= a < b < |TopK(scores, k)| ==>
              TopK(scores, k)[a] != TopK(scores, k)[b] &&
              scores[TopK(scores, k)[a]] >= scores[TopK(scores, k)[b]]
    ensures forall j, a :: 0 <= j < |scores| && j !in TopK(scores, k) && 0 <= a < |TopK(scores, k)| ==>
              scores[j] <= scores[TopK(scores, k)[a]]
    ensures k >= |scores| ==> forall j :: 0 <= j < |scores| ==> j in TopK(scores, k)
  {
    var full := Ranking(scores, |scores|);
    var top := TopK(scores, k);
    if k >= |scores| {
      assert top == full;
    }
    forall j, a | 0 <= j < |scores| && j !in top && 0 <= a < |top|
      ensures scores[j] <= scores[top[a]]
    {
      assert j in full;
      var p :| 0 <= p < |full| && full[p] == j;
      assert p >= |top|;
      assert Precedes(scores, full[a], full[p]);
    }
  }

  /** Among equal scores, the earlier index is selected first. */
  lemma TopKIsStable(scores: seq<int>, k: nat)
    ensures forall a, b :: 0 <= a < b < |TopK(scores, k)| && scores[TopK(scores, k)[a]] == scores[TopK(scores, k)[b]] ==>
              TopK(scores, k)[a] < TopK(scores, k)[b]
    ensures forall j, a ::
              (0 <= j < |scores| && j !in TopK(scores, k) && 0 <= a < |TopK(scores, k)| &&
               scores[j] == scores[TopK(scores, k)[a]]) ==> TopK(scores, k)[a] < j
  {
    var full := Ranking(scores, |scores|);
    var top := TopK(scores, k);
    forall j, a | 0 <= j < |scores| && j !in top && 0 <= a < |top| && scores[j] == scores[top[a]]
      ensures top[a] < j
    {
      assert j in full;
      var p :| 0 <= p < |full| && full[p] == j;
      assert p >= |top|;
      assert Precedes(scores, full[a], full[p]);
    }
  }
}
