/**
 * Late-interaction (MaxSim) scoring of one query against one document.
 * A query and a document are each a sequence of token embedding vectors;
 * the score is the sum, over query tokens, of the best dot product that
 * token reaches against any document token.
 */
module LateInteraction {

  /** One token embedding. Float32 entries are modelled as integers. */
  type Vector = seq<int>

  /** Token embeddings of one text, one row per token. */
  type Matrix = seq<Vector>

  /** Every query token can be multiplied with every document token. */
  ghost predicate Aligned(q: Matrix, d: Matrix)
  {
    forall s, t :: 0 <= s < |q| && 0 <= t < |d| ==> |q[s]| == |d[t]|
  }

  /** Every row of `d` has the width of `v`. */
  ghost predicate Width(d: Matrix, v: Vector)
  {
    forall t :: 0 <= t < |d| ==> |d[t]| == |v|
  }

  function Dot(u: Vector, v: Vector): int
    requires |u| == |v|
  {
    if |u| == 0 then 0 else u[0] * v[0] + Dot(u[1..], v[1..])
  }

  /** The contraction over the embedding axis h splits over any cut of that axis. */
  lemma {:induction false} DotAppend(u1: Vector, u2: Vector, v1: Vector, v2: Vector)
    requires |u1| == |v1| && |u2| == |v2|
    ensures Dot(u1 + u2, v1 + v2) == Dot(u1, v1) + Dot(u2, v2)
  {
    if |u1| > 0 {
      assert (u1 + u2)[1..] == u1[1..] + u2;
      assert (v1 + v2)[1..] == v1[1..] + v2;
      DotAppend(u1[1..], u2, v1[1..], v2);
    } else {
      assert u1 + u2 == u2 && v1 + v2 == v2;
    }
  }

  /** Max-pooling along the document-token axis. */
  function MaxDot(v: Vector, d: Matrix): (r: int)
    requires |d| > 0 && Width(d, v)
    ensures forall t :: 0 <= t < |d| ==> Dot(v, d[t]) <= r
    ensures exists t :: 0 <= t < |d| && Dot(v, d[t]) == r
  {
    if |d| == 1 then Dot(v, d[0])
    else
      var rest := MaxDot(v, d[1..]);
      assert forall t :: 1 <= t < |d| ==> d[t] == d[1..][t - 1];
      if Dot(v, d[0]) >= rest then Dot(v, d[0]) else rest
  }

  /** A document token that reaches the maximum for query token `v`. */
  function BestToken(v: Vector, d: Matrix): (t: nat)
    requires |d| > 0 && Width(d, v)
    ensures t < |d| && Dot(v, d[t]) == MaxDot(v, d)
  {
    if |d| == 1 then 0
    else
      assert forall u :: 1 <= u < |d| ==> d[u] == d[1..][u - 1];
      if Dot(v, d[0]) >= MaxDot(v, d[1..]) then 0 else 1 + BestToken(v, d[1..])
  }

  /** The late-interaction score: sum over query tokens of MaxDot. */
  function MaxSim(q: Matrix, d: Matrix): int
    requires |d| > 0 && Aligned(q, d)
  {
    if |q| == 0 then 0 else MaxDot(q[0], d) + MaxSim(q[1..], d)
  }

  /**
   * A choice of one document token per query token: the score such a
   * choice reaches is the sum of the chosen dot products.
   */
  ghost predicate IsChoice(q: Matrix, d: Matrix, choice: seq<nat>)
  {
    |choice| == |q| && forall s :: 0 <= s < |choice| ==> choice[s] < |d|
  }

  function ChoiceScore(q: Matrix, d: Matrix, choice: seq<nat>): int
    requires Aligned(q, d) && IsChoice(q, d, choice)
  {
    if |q| == 0 then 0
    else Dot(q[0], d[choice[0]]) + ChoiceScore(q[1..], d, choice[1..])
  }

  /** The best document token for every query token. */
  function BestChoice(q: Matrix, d: Matrix): (choice: seq<nat>)
    requires |d| > 0 && Aligned(q, d)
    ensures IsChoice(q, d, choice)
  {
    if |q| == 0 then [] else [BestToken(q[0], d)] + BestChoice(q[1..], d)
  }

  /** No way of pairing query tokens with document tokens beats MaxSim. */
  lemma {:induction false} MaxSimIsUpperBound(q: Matrix, d: Matrix, choice: seq<nat>)
    requires |d| > 0 && Aligned(q, d) && IsChoice(q, d, choice)
    ensures ChoiceScore(q, d, choice) <= MaxSim(q, d)
  {
    if |q| > 0 {
      MaxSimIsUpperBound(q[1..], d, choice[1..]);
    }
  }

  /** MaxSim is reached by pairing every query token with its best document token. */
  lemma {:induction false} MaxSimIsAttained(q: Matrix, d: Matrix)
    requires |d| > 0 && Aligned(q, d)
    ensures ChoiceScore(q, d, BestChoice(q, d)) == MaxSim(q, d)
  {
    if |q| > 0 {
      MaxSimIsAttained(q[1..], d);
    }
  }

  /** Query tokens contribute independently: the score splits over the query. */
  lemma {:induction false} MaxSimSplitsOverQuery(q1: Matrix, q2: Matrix, d: Matrix)
    requires |d| > 0 && Aligned(q1, d) && Aligned(q2, d)
    ensures Aligned(q1 + q2, d)
    ensures MaxSim(q1 + q2, d) == MaxSim(q1, d) + MaxSim(q2, d)
  {
    assert Aligned(q1 + q2, d) by {
      forall s, t | 0 <= s < |q1 + q2| && 0 <= t < |d|
        ensures |(q1 + q2)[s]| == |d[t]|
      {
        if s >= |q1| { assert (q1 + q2)[s] == q2[s - |q1|]; }
      }
    }
    if |q1| > 0 {
      assert (q1 + q2)[1..] == q1[1..] + q2;
      MaxSimSplitsOverQuery(q1[1..], q2, d);
    } else {
      assert q1 + q2 == q2;
    }
  }

  /** Extra document tokens never lower a score. */
  lemma {:induction false} MaxSimGrowsWithDocument(q: Matrix, d: Matrix, e: Matrix)
    requires |d| > 0 && Aligned(q, d) && Aligned(q, e)
    ensures Aligned(q, d + e)
    ensures MaxSim(q, d) <= MaxSim(q, d + e)
  {
    assert Aligned(q, d + e) by {
      forall s, t | 0 <= s < |q| && 0 <= t < |d + e|
        ensures |q[s]| == |(d + e)[t]|
      {
        if t >= |d| { assert (d + e)[t] == e[t - |d|]; }
      }
    }
    if |q| > 0 {
      var t := BestToken(q[0], d);
      assert (d + e)[t] == d[t];
      MaxSimGrowsWithDocument(q[1..], d, e);
    }
  }

  /** Every row of every matrix has one and the same width. */
  ghost predicate SameWidth(ms: seq<Matrix>)
  {
    forall a, b, s, t :: 0 <= a < |ms| && 0 <= b < |ms| && 0 <= s < |ms[a]| && 0 <= t < |ms[b]| ==>
      |ms[a][s]| == |ms[b][t]|
  }

  /**
   * torch.stack turns a batch into one (b, t, h) tensor: every document
   * has the same token count and every token row the same width.
   */
  ghost predicate Stackable(batch: seq<Matrix>)
  {
    && (forall a, b :: 0 <= a < |batch| && 0 <= b < |batch| ==> |batch[a]| == |batch[b]|)
    && SameWidth(batch)
  }

  /** Every document is non-empty and can be scored against the query. */
  ghost predicate Scorable(q: Matrix, docs: seq<Matrix>)
  {
    forall b :: 0 <= b < |docs| ==> |docs[b]| > 0 && Aligned(q, docs[b])
  }

  /** The score of every document of `docs` for query q, in order. */
  function ScoresOf(q: Matrix, docs: seq<Matrix>): (scores: seq<int>)
    requires Scorable(q, docs)
    ensures |scores| == |docs|
  {
    seq(|docs|, b requires 0 <= b < |docs| => MaxSim(q, docs[b]))
  }

  lemma ScoresOfSlice(q: Matrix, docs: seq<Matrix>, lo: nat, hi: nat)
    requires Scorable(q, docs) && lo <= hi <= |docs|
    ensures Scorable(q, docs[lo..hi]) && ScoresOf(q, docs[lo..hi]) == ScoresOf(q, docs)[lo..hi]
  {
    assert forall b :: 0 <= b < hi - lo ==> docs[lo..hi][b] == docs[lo + b];
  }

  /** The largest entry of a non-empty vector (torch.max along one axis). */
  function SeqMax(xs: seq<int>): int
    requires |xs| > 0
  {
    if |xs| == 1 then xs[0]
    else
      var rest := SeqMax(xs[1..]);
      if xs[0] >= rest then xs[0] else rest
  }

  /** The sum of a vector's entries (torch.sum along one axis). */
  function SeqSum(xs: seq<int>): int
  {
    if |xs| == 0 then 0 else xs[0] + SeqSum(xs[1..])
  }

  /** Max-pooling query token v's similarities over the tokens of d is MaxDot. */
  lemma {:induction false} SeqMaxOfDots(v: Vector, d: Matrix)
    requires |d| > 0 && Width(d, v)
    ensures SeqMax(seq(|d|, t requires 0 <= t < |d| => Dot(v, d[t]))) == MaxDot(v, d)
  {
    var dots := seq(|d|, t requires 0 <= t < |d| => Dot(v, d[t]));
    if |d| > 1 {
      var rest := d[1..];
      SeqMaxOfDots(v, rest);
      assert dots[1..] == seq(|rest|, t requires 0 <= t < |rest| => Dot(v, rest[t]));
    }
  }

  /** Summing the pooled similarities over the query tokens is MaxSim. */
  lemma {:induction false} SeqSumOfMaxDots(q: Matrix, d: Matrix)
    requires |d| > 0 && Aligned(q, d)
    ensures SeqSum(seq(|q|, s requires 0 <= s < |q| => MaxDot(q[s], d))) == MaxSim(q, d)
  {
    var pooled := seq(|q|, s requires 0 <= s < |q| => MaxDot(q[s], d));
    if |q| > 0 {
      var rest := q[1..];
      SeqSumOfMaxDots(rest, d);
      assert pooled[1..] == seq(|rest|, s requires 0 <= s < |rest| => MaxDot(rest[s], d));
    }
  }

  /**
   * The tensor einsum "sh,bth->bst" forms for one query and a stacked
   * batch: entry [b][s][t] is the dot product of query token s with token
   * t of document b.
   */
  function Similarities(q: Matrix, batch: seq<Matrix>): (sim: seq<seq<seq<int>>>)
    requires Scorable(q, batch)
    ensures |sim| == |batch|
    ensures forall b :: 0 <= b < |batch| ==>
              && |sim[b]| == |q|
              && forall s :: 0 <= s < |q| ==> sim[b][s] == seq(|batch[b]|, t requires 0 <= t < |batch[b]| => Dot(q[s], batch[b][t]))
  {
    seq(|batch|, b requires 0 <= b < |batch| =>
      seq(|q|, s requires 0 <= s < |q| =>
        seq(|batch[b]|, t requires 0 <= t < |batch[b]| => Dot(q[s], batch[b][t]))))
  }

  /**
   * One query against a stacked batch of documents: the similarity tensor,
   * max-pooled over document tokens (axis t) and summed over query tokens
   * (axis s), one score per document of the batch.
   */
  function BatchScores(q: Matrix, batch: seq<Matrix>): (scores: seq<int>)
    requires Stackable(batch) && Scorable(q, batch)
    ensures |scores| == |batch|
    ensures forall b :: 0 <= b < |batch| ==> scores[b] == MaxSim(q, batch[b])
  {
    var sim := Similarities(q, batch);
    var scores := seq(|batch|, b requires 0 <= b < |batch| =>
      SeqSum(seq(|q|, s requires 0 <= s < |q| => SeqMax(sim[b][s]))));
    assert forall b :: 0 <= b < |batch| ==> scores[b] == MaxSim(q, batch[b]) by {
      forall b | 0 <= b < |batch|
        ensures scores[b] == MaxSim(q, batch[b])
      {
        var d := batch[b];
        forall s | 0 <= s < |q|
          ensures SeqMax(sim[b][s]) == MaxDot(q[s], d)
        {
          SeqMaxOfDots(q[s], d);
        }
        assert seq(|q|, s requires 0 <= s < |q| => SeqMax(sim[b][s]))
            == seq(|q|, s requires 0 <= s < |q| => MaxDot(q[s], d));
        SeqSumOfMaxDots(q, d);
      }
    }
    scores
  }

  /** Scoring a stacked batch gives each document's score, as scoring the documents one by one does. */
  lemma BatchScoresAreScoresOf(q: Matrix, batch: seq<Matrix>)
    requires Stackable(batch) && Scorable(q, batch)
    ensures BatchScores(q, batch) == ScoresOf(q, batch)
  {
  }

  /**
   * The batch sizes "bsh,bth->bst" accepts: equal, or one side holding a
   * single item that torch broadcasts against every item of the other.
   */
  predicate Broadcastable(a: nat, c: nat)
  {
    a == c || a == 1 || c == 1
  }

  /** How many scores a batch of `a` queries and `c` documents yields. */
  function BroadcastSize(a: nat, c: nat): nat
  {
    if a == 1 then c else a
  }

  /**
   * The (query, document) positions score b of such a batch pairs, when
   * the batch starts at position `start` of both inputs: the shared batch
   * index, or the first item on a side holding a single one.
   */
  function BatchPairs(start: nat, a: nat, c: nat): (pairs: seq<(nat, nat)>)
    ensures |pairs| == BroadcastSize(a, c)
    ensures Broadcastable(a, c) ==> forall b :: 0 <= b < |pairs| ==>
              start <= pairs[b].0 < start + a && start <= pairs[b].1 < start + c
  {
    seq(BroadcastSize(a, c), b requires 0 <= b < BroadcastSize(a, c) =>
      (start + (if a == 1 then 0 else b), start + (if c == 1 then 0 else b)))
  }

  /** Every listed pair names a query and a non-empty document it can be scored against. */
  ghost predicate PairsScorable(queries: seq<Matrix>, docs: seq<Matrix>, pairs: seq<(nat, nat)>)
  {
    forall i :: 0 <= i < |pairs| ==>
      && pairs[i].0 < |queries| && pairs[i].1 < |docs|
      && |docs[pairs[i].1]| > 0 && Aligned(queries[pairs[i].0], docs[pairs[i].1])
  }

  /** The score of each listed (query, document) pair, in list order. */
  function PairListScores(queries: seq<Matrix>, docs: seq<Matrix>, pairs: seq<(nat, nat)>): (scores: seq<int>)
    requires PairsScorable(queries, docs, pairs)
    ensures |scores| == |pairs|
  {
    seq(|pairs|, i requires 0 <= i < |pairs| => MaxSim(queries[pairs[i].0], docs[pairs[i].1]))
  }

  /** Scoring two lists of pairs one after the other scores their concatenation. */
  lemma PairListScoresAppend(queries: seq<Matrix>, docs: seq<Matrix>, p: seq<(nat, nat)>, p': seq<(nat, nat)>)
    requires PairsScorable(queries, docs, p + p')
    ensures PairsScorable(queries, docs, p) && PairsScorable(queries, docs, p')
    ensures PairListScores(queries, docs, p + p')
            == PairListScores(queries, docs, p) + PairListScores(queries, docs, p')
  {
    assert forall i :: 0 <= i < |p| ==> (p + p')[i] == p[i];
    assert forall i :: 0 <= i < |p'| ==> (p + p')[|p| + i] == p'[i];
  }

  /** Query b and document b can be scored, as "bsh,bth->bst" pairs them. */
  ghost predicate Pairable(queries: seq<Matrix>, docs: seq<Matrix>)
  {
    Broadcastable(|queries|, |docs|) && PairsScorable(queries, docs, BatchPairs(0, |queries|, |docs|))
  }

  /** Pairwise scoring of one batch, the scores "bsh,bth->bst" yields. */
  function PairScores(queries: seq<Matrix>, docs: seq<Matrix>): (scores: seq<int>)
    requires Pairable(queries, docs)
    ensures |scores| == BroadcastSize(|queries|, |docs|)
  {
    PairListScores(queries, docs, BatchPairs(0, |queries|, |docs|))
  }

  /**
   * What pairwise scoring pairs: query b with document b, a single query
   * with every document, or every query with a single document; never the
   * cross product.
   */
  lemma PairScoresBroadcast(queries: seq<Matrix>, docs: seq<Matrix>)
    requires Pairable(queries, docs)
    ensures var scores := PairScores(queries, docs);
      && (|queries| == |docs| ==> forall b :: 0 <= b < |scores| ==>
            |docs[b]| > 0 && Aligned(queries[b], docs[b]) && scores[b] == MaxSim(queries[b], docs[b]))
      && (|queries| == 1 ==> |scores| == |docs| && forall b :: 0 <= b < |scores| ==>
            |docs[b]| > 0 && Aligned(queries[0], docs[b]) && scores[b] == MaxSim(queries[0], docs[b]))
      && (|docs| == 1 ==> |scores| == |queries| && (|queries| > 0 ==> |docs[0]| > 0) && forall b :: 0 <= b < |scores| ==>
            Aligned(queries[b], docs[0]) && scores[b] == MaxSim(queries[b], docs[0]))
  {
    if |queries| == |docs| {
      PairScoresOfEqualSizes(queries, docs);
    }
    if |queries| == 1 {
      PairScoresOfOneQuery(queries, docs);
    }
    if |docs| == 1 {
      PairScoresOfOneDocument(queries, docs);
    }
  }

  lemma PairScoresOfEqualSizes(queries: seq<Matrix>, docs: seq<Matrix>)
    requires Pairable(queries, docs) && |queries| == |docs|
    ensures |PairScores(queries, docs)| == |queries|
    ensures forall b :: 0 <= b < |queries| ==>
              |docs[b]| > 0 && Aligned(queries[b], docs[b]) && PairScores(queries, docs)[b] == MaxSim(queries[b], docs[b])
  {
    forall b | 0 <= b < |queries|
      ensures |docs[b]| > 0 && Aligned(queries[b], docs[b]) && PairScores(queries, docs)[b] == MaxSim(queries[b], docs[b])
    {
      assert (if |queries| == 1 then 0 else b) == b && (if |docs| == 1 then 0 else b) == b;
      PairScoresAt(queries, docs, b);
    }
  }

  lemma PairScoresOfOneQuery(queries: seq<Matrix>, docs: seq<Matrix>)
    requires Pairable(queries, docs) && |queries| == 1
    ensures |PairScores(queries, docs)| == |docs|
    ensures forall b :: 0 <= b < |docs| ==>
              |docs[b]| > 0 && Aligned(queries[0], docs[b]) && PairScores(queries, docs)[b] == MaxSim(queries[0], docs[b])
  {
    forall b | 0 <= b < |docs|
      ensures |docs[b]| > 0 && Aligned(queries[0], docs[b]) && PairScores(queries, docs)[b] == MaxSim(queries[0], docs[b])
    {
      assert (if |docs| == 1 then 0 else b) == b;
      PairScoresAt(queries, docs, b);
    }
  }

  lemma PairScoresOfOneDocument(queries: seq<Matrix>, docs: seq<Matrix>)
    requires Pairable(queries, docs) && |docs| == 1
    ensures |PairScores(queries, docs)| == |queries| && (|queries| > 0 ==> |docs[0]| > 0)
    ensures forall b :: 0 <= b < |queries| ==>
              Aligned(queries[b], docs[0]) && PairScores(queries, docs)[b] == MaxSim(queries[b], docs[0])
  {
    forall b | 0 <= b < |queries|
      ensures |docs[0]| > 0 && Aligned(queries[b], docs[0]) && PairScores(queries, docs)[b] == MaxSim(queries[b], docs[0])
    {
      assert (if |queries| == 1 then 0 else b) == b;
      PairScoresAt(queries, docs, b);
    }
    if |queries| > 0 {
      PairScoresAt(queries, docs, 0);
    }
  }

  /** Score b of a batch pairs the query and the document BatchPairs names. */
  lemma PairScoresAt(queries: seq<Matrix>, docs: seq<Matrix>, b: nat)
    requires Pairable(queries, docs) && b < BroadcastSize(|queries|, |docs|)
    ensures var s, t := (if |queries| == 1 then 0 else b), (if |docs| == 1 then 0 else b);
      && s < |queries| && t < |docs| && |docs[t]| > 0 && Aligned(queries[s], docs[t])
      && PairScores(queries, docs)[b] == MaxSim(queries[s], docs[t])
  {
    var pairs := BatchPairs(0, |queries|, |docs|);
    assert pairs[b] == (if |queries| == 1 then 0 else b, if |docs| == 1 then 0 else b);
  }

  /** A batch cut out of both inputs at `start` scores the pairs BatchPairs names in the inputs. */
  lemma PairScoresOfSlices(queries: seq<Matrix>, docs: seq<Matrix>, start: nat, qe: seq<Matrix>, de: seq<Matrix>)
    requires Broadcastable(|qe|, |de|)
    requires start + |qe| <= |queries| && qe == queries[start .. start + |qe|]
    requires start + |de| <= |docs| && de == docs[start .. start + |de|]
    requires PairsScorable(queries, docs, BatchPairs(start, |qe|, |de|))
    ensures Pairable(qe, de)
    ensures PairScores(qe, de) == PairListScores(queries, docs, BatchPairs(start, |qe|, |de|))
  {
    var local, pairs := BatchPairs(0, |qe|, |de|), BatchPairs(start, |qe|, |de|);
    assert forall b :: 0 <= b < |pairs| ==>
      pairs[b] == (start + local[b].0, start + local[b].1) &&
      qe[local[b].0] == queries[pairs[b].0] && de[local[b].1] == docs[pairs[b].1];
  }
}
