/**
 * The ColBERT encoder's side of late interaction: how `forward` prepares
 * texts and tokenizer settings for query or document mode, and `scores`,
 * which embeds queries and documents batch by batch, side by side, and
 * scores the pairs einsum forms in each pair of batches with MaxSim. The
 * language model itself is the parameter `embed`.
 */
module ModelsColBERT {
  import opened Wrappers
  import opened LateInteraction
  import opened Batching

  /** A keyword-argument value handed on to the tokenizer. */
  datatype Arg = BoolArg(b: bool) | IntArg(i: int) | StrArg(s: string)

  /** One text as the encoder receives it: the text, the pad token in force, the tokenizer arguments. */
  datatype TokenizerCall = TokenizerCall(text: string, padToken: string, kwargs: map<string, Arg>)

  const QUERY_MARKER: string := "[Q] "
  const DOCUMENT_MARKER: string := "[D] "

  function Marker(queryMode: bool): (m: string)
    ensures |m| == 4
  {
    if queryMode then QUERY_MARKER else DOCUMENT_MARKER
  }

  /** The texts with the mode's four-character marker in front, same count and order. */
  function Prefixed(texts: seq<string>, queryMode: bool): (r: seq<string>)
    ensures |r| == |texts|
    ensures forall i :: 0 <= i < |r| ==>
              |r[i]| == |texts[i]| + 4 && r[i][..4] == Marker(queryMode) && r[i][4..] == texts[i]
  {
    var m := Marker(queryMode);
    assert forall t: string :: (m + t)[..4] == m && (m + t)[4..] == t;
    seq(|texts|, i requires 0 <= i < |texts| => m + texts[i])
  }

  /** The tokenizer arguments `forward` builds: its defaults first, the caller's kwargs win. */
  function TokenizerKwargs(truncation: bool, addSpecialTokens: bool, maxLength: int, kwargs: map<string, Arg>)
    : map<string, Arg>
  {
    map["truncation" := BoolArg(truncation),
        "padding" := StrArg("max_length"),
        "max_length" := IntArg(maxLength),
        "add_special_tokens" := BoolArg(addSpecialTokens)] + kwargs
  }

  /** The four defaults are always present; a caller's argument replaces the default of the same name. */
  lemma TokenizerKwargsMerge(truncation: bool, addSpecialTokens: bool, maxLength: int, kwargs: map<string, Arg>)
    ensures var r := TokenizerKwargs(truncation, addSpecialTokens, maxLength, kwargs);
      && r.Keys == {"truncation", "padding", "max_length", "add_special_tokens"} + kwargs.Keys
      && (forall name :: name in kwargs ==> r[name] == kwargs[name])
      && ("truncation" !in kwargs ==> r["truncation"] == BoolArg(truncation))
      && ("padding" !in kwargs ==> r["padding"] == StrArg("max_length"))
      && ("max_length" !in kwargs ==> r["max_length"] == IntArg(maxLength))
      && ("add_special_tokens" !in kwargs ==> r["add_special_tokens"] == BoolArg(addSpecialTokens))
  {
  }

  /** Number of zipped batches: the zip stops with the shorter batching. */
  function ZippedBatchCount(nq: nat, nd: nat, size: nat): nat
    requires size > 0
  {
    Min(BatchCount(nq, size), BatchCount(nd, size))
  }

  /**
   * The (query, document) positions behind the scores of the first j
   * zipped batches of `nq` queries and `nd` documents, in order.
   */
  function ZipPairs(nq: nat, nd: nat, size: nat, j: nat): seq<(nat, nat)>
  {
    if j == 0 then []
    else ZipPairs(nq, nd, size, j - 1)
         + BatchPairs(BatchStart(j - 1, size), BatchLen(nq, size, j - 1), BatchLen(nd, size, j - 1))
  }

  /** Pair i at position i, for the first n positions. */
  function Diagonal(n: nat): (pairs: seq<(nat, nat)>)
  {
    seq(n, i requires 0 <= i < n => (i, i))
  }

  /** The pairs of the first j zipped batches come first among those of the first J. */
  lemma {:induction false} ZipPairsPrefix(nq: nat, nd: nat, size: nat, j: nat, J: nat)
    requires j <= J
    ensures |ZipPairs(nq, nd, size, j)| <= |ZipPairs(nq, nd, size, J)|
    ensures forall i :: 0 <= i < |ZipPairs(nq, nd, size, j)| ==>
              ZipPairs(nq, nd, size, J)[i] == ZipPairs(nq, nd, size, j)[i]
    decreases J
  {
    if j < J {
      ZipPairsPrefix(nq, nd, size, j, J - 1);
    }
  }

  /** Every pair of the zip names a query and a document that exist. */
  lemma {:induction false} ZipPairsInRange(nq: nat, nd: nat, size: nat, j: nat)
    requires size > 0 && j <= ZippedBatchCount(nq, nd, size)
    requires forall i :: 0 <= i < j ==> Broadcastable(BatchLen(nq, size, i), BatchLen(nd, size, i))
    ensures forall i :: 0 <= i < |ZipPairs(nq, nd, size, j)| ==>
              ZipPairs(nq, nd, size, j)[i].0 < nq && ZipPairs(nq, nd, size, j)[i].1 < nd
  {
    if j > 0 {
      ZipPairsInRange(nq, nd, size, j - 1);
      var start := BatchStart(j - 1, size);
      BatchCountStart(nq, size, j - 1);
      BatchCountStart(nd, size, j - 1);
      var prev, last := ZipPairs(nq, nd, size, j - 1), BatchPairs(start, BatchLen(nq, size, j - 1), BatchLen(nd, size, j - 1));
      assert forall i :: 0 <= i < |last| ==> (prev + last)[|prev| + i] == last[i];
    }
  }

  /** A batch of `len` queries and `len` documents at `start` extends the diagonal by `len` positions. */
  lemma DiagonalExtends(start: nat, len: nat)
    ensures Diagonal(start) + BatchPairs(start, len, len) == Diagonal(start + len)
  {
    var last := BatchPairs(start, len, len);
    assert forall b :: 0 <= b < len ==> last[b] == (start + b, start + b);
  }

  /** Zipped batch j, when it holds as many queries as documents, ends where the shorter input's batch j ends. */
  lemma EqualBatchBounds(nq: nat, nd: nat, size: nat, j: nat)
    requires size > 0 && j < ZippedBatchCount(nq, nd, size)
    requires BatchLen(nq, size, j) == BatchLen(nd, size, j)
    ensures BatchStart(j, size) < Min(nq, nd)
    ensures Min(BatchStart(j + 1, size), Min(nq, nd)) == BatchStart(j, size) + BatchLen(nq, size, j)
  {
    BatchStartShift(j, size);
    BatchCountStart(nq, size, j);
    BatchCountStart(nd, size, j);
  }

  /**
   * When every zipped batch holds as many queries as documents, the zip
   * pairs query i with document i, in order, up to the shorter input.
   */
  lemma {:induction false} ZipPairsDiagonal(nq: nat, nd: nat, size: nat, j: nat)
    requires size > 0 && j <= ZippedBatchCount(nq, nd, size)
    requires forall i :: 0 <= i < j ==> BatchLen(nq, size, i) == BatchLen(nd, size, i)
    ensures ZipPairs(nq, nd, size, j) == Diagonal(Min(BatchStart(j, size), Min(nq, nd)))
  {
    if j > 0 {
      ZipPairsDiagonal(nq, nd, size, j - 1);
      EqualBatchBounds(nq, nd, size, j - 1);
      var start := BatchStart(j - 1, size);
      assert Min(start, Min(nq, nd)) == start;
      DiagonalExtends(start, BatchLen(nq, size, j - 1));
    }
  }

  /** All the zipped batches cover min(nq, nd) positions on each side. */
  lemma ZippedBatchesCover(nq: nat, nd: nat, size: nat)
    requires size > 0
    ensures BatchStart(ZippedBatchCount(nq, nd, size), size) >= Min(nq, nd)
  {
    BatchCountStart(nq, size, BatchCount(nq, size));
    BatchCountStart(nd, size, BatchCount(nd, size));
  }

  /** With as many queries as documents, the zip is the diagonal, whatever the batch size. */
  lemma ZipPairsOfEqualLengths(n: nat, size: nat)
    requires size > 0
    ensures ZipPairs(n, n, size, ZippedBatchCount(n, n, size)) == Diagonal(n)
  {
    ZipPairsDiagonal(n, n, size, ZippedBatchCount(n, n, size));
    ZippedBatchesCover(n, n, size);
  }

  /** A single query zipped with one batch of documents is paired with each of them. */
  lemma OneQueryAgainstOneBatch(nd: nat, size: nat)
    requires 0 < nd <= size
    ensures ZipPairs(1, nd, size, ZippedBatchCount(1, nd, size)) == seq(nd, t requires 0 <= t < nd => (0, t))
  {
    assert ZippedBatchCount(1, nd, size) == 1;
    assert ZipPairs(1, nd, size, 1) == [] + BatchPairs(0, 1, nd);
  }

  /**
   * Three queries zipped with four documents in batches of two: the last
   * query batch holds a single query, which meets both documents of the
   * last document batch.
   */
  lemma ThreeQueriesFourDocuments()
    ensures ZipPairs(3, 4, 2, ZippedBatchCount(3, 4, 2)) == [(0, 0), (1, 1), (2, 2), (2, 3)]
  {
    assert ZippedBatchCount(3, 4, 2) == 2;
    assert BatchStart(1, 2) == 2;
    assert ZipPairs(3, 4, 2, 1) == [(0, 0), (1, 1)];
  }

  /**
   * The pairs of zipped batch j follow those of the batches before it, and
   * their scores follow those batches' scores.
   */
  lemma ZipPairsStep(qs: seq<Matrix>, ds: seq<Matrix>, size: nat, j: nat)
    requires size > 0 && j < ZippedBatchCount(|qs|, |ds|, size)
    requires PairsScorable(qs, ds, ZipPairs(|qs|, |ds|, size, ZippedBatchCount(|qs|, |ds|, size)))
    ensures var last := BatchPairs(BatchStart(j, size), BatchLen(|qs|, size, j), BatchLen(|ds|, size, j));
      && PairsScorable(qs, ds, ZipPairs(|qs|, |ds|, size, j)) && PairsScorable(qs, ds, last)
      && PairsScorable(qs, ds, ZipPairs(|qs|, |ds|, size, j + 1))
      && PairListScores(qs, ds, ZipPairs(|qs|, |ds|, size, j + 1))
         == PairListScores(qs, ds, ZipPairs(|qs|, |ds|, size, j)) + PairListScores(qs, ds, last)
  {
    var last := BatchPairs(BatchStart(j, size), BatchLen(|qs|, size, j), BatchLen(|ds|, size, j));
    assert ZipPairs(|qs|, |ds|, size, j + 1) == ZipPairs(|qs|, |ds|, size, j) + last;
    ZipPairsPrefix(|qs|, |ds|, size, j + 1, ZippedBatchCount(|qs|, |ds|, size));
    PairListScoresAppend(qs, ds, ZipPairs(|qs|, |ds|, size, j), last);
  }

  /**
   * Scoring zipped batch j, cut out of the embedded inputs, extends the
   * concatenated scores by the scores of that batch's pairs.
   */
  lemma ZippedBatchStep(qs: seq<Matrix>, ds: seq<Matrix>, size: nat, j: nat,
                        qe: seq<Matrix>, de: seq<Matrix>, done: seq<seq<int>>)
    requires size > 0 && j < ZippedBatchCount(|qs|, |ds|, size)
    requires Broadcastable(|qe|, |de|)
    requires |qe| == BatchLen(|qs|, size, j) && |de| == BatchLen(|ds|, size, j)
    requires BatchStart(j, size) + |qe| <= |qs| && qe == qs[BatchStart(j, size) .. BatchStart(j, size) + |qe|]
    requires BatchStart(j, size) + |de| <= |ds| && de == ds[BatchStart(j, size) .. BatchStart(j, size) + |de|]
    requires PairsScorable(qs, ds, ZipPairs(|qs|, |ds|, size, ZippedBatchCount(|qs|, |ds|, size)))
    requires PairsScorable(qs, ds, ZipPairs(|qs|, |ds|, size, j))
    requires Flatten(done) == PairListScores(qs, ds, ZipPairs(|qs|, |ds|, size, j))
    ensures Pairable(qe, de) && PairsScorable(qs, ds, ZipPairs(|qs|, |ds|, size, j + 1))
    ensures Flatten(done + [PairScores(qe, de)]) == PairListScores(qs, ds, ZipPairs(|qs|, |ds|, size, j + 1))
  {
    var start := BatchStart(j, size);
    var last := BatchPairs(start, |qe|, |de|);
    ZipPairsStep(qs, ds, size, j);
    PairScoresOfSlices(qs, ds, start, qe, de);
    FlattenExtends(done, PairScores(qe, de), PairListScores(qs, ds, ZipPairs(|qs|, |ds|, size, j)),
                   PairListScores(qs, ds, ZipPairs(|qs|, |ds|, size, j + 1)));
  }

  class Encoder {
    const maxLengthQuery: int
    const maxLengthDocument: int
    /** The tokenizer's mask token, used to pad queries. */
    const queryPadToken: string
    /** The tokenizer's own pad token, used to pad documents. */
    const originalPadToken: string
    /** The pad token the tokenizer currently uses. */
    var padToken: string

    constructor (maxLengthQuery: int, maxLengthDocument: int, maskToken: string, padToken: string)
      ensures this.maxLengthQuery == maxLengthQuery && this.maxLengthDocument == maxLengthDocument
      ensures queryPadToken == maskToken && originalPadToken == padToken && this.padToken == padToken
    {
      this.maxLengthQuery := maxLengthQuery;
      this.maxLengthDocument := maxLengthDocument;
      queryPadToken := maskToken;
      originalPadToken := padToken;
      this.padToken := padToken;
    }

    /** The pad token for a mode: the mask token for queries, the original one for documents. */
    function PadTokenFor(queryMode: bool): string
    {
      if queryMode then queryPadToken else originalPadToken
    }

    /**
     * The tokenizer arguments in a mode: the padding length defaults to the
     * mode's maximum length unless the caller passes `max_length`.
     */
    function ForwardKwargs(queryMode: bool, truncation: bool, addSpecialTokens: bool, kwargs: map<string, Arg>)
      : map<string, Arg>
    {
      TokenizerKwargs(truncation, addSpecialTokens, if queryMode then maxLengthQuery else maxLengthDocument, kwargs)
    }

    /** What `forward` hands the encoder for one text in a mode. */
    function CallFor(text: string, queryMode: bool, truncation: bool, addSpecialTokens: bool, kwargs: map<string, Arg>)
      : TokenizerCall
    {
      TokenizerCall(Marker(queryMode) + text, PadTokenFor(queryMode),
                    ForwardKwargs(queryMode, truncation, addSpecialTokens, kwargs))
    }

    /**
     * The encoder sees the text behind its mode's marker, with the mode's
     * pad token, and padded to the mode's maximum length unless the caller
     * says otherwise.
     */
    lemma CallForMarksText(text: string, queryMode: bool, truncation: bool, addSpecialTokens: bool,
                           kwargs: map<string, Arg>)
      ensures var c := CallFor(text, queryMode, truncation, addSpecialTokens, kwargs);
              && |c.text| == |text| + 4 && c.text[..4] == Marker(queryMode) && c.text[4..] == text
              && c.padToken == (if queryMode then queryPadToken else originalPadToken)
              && "padding" in c.kwargs && "max_length" in c.kwargs
              && c.kwargs["padding"] == (if "padding" in kwargs then kwargs["padding"] else StrArg("max_length"))
              && c.kwargs["max_length"] ==
                 (if "max_length" in kwargs then kwargs["max_length"]
                  else IntArg(if queryMode then maxLengthQuery else maxLengthDocument))
    {
      var c := CallFor(text, queryMode, truncation, addSpecialTokens, kwargs);
      assert c.text == Marker(queryMode) + text;
      TokenizerKwargsMerge(truncation, addSpecialTokens,
                           if queryMode then maxLengthQuery else maxLengthDocument, kwargs);
    }

    /**
     * Marks every text with its mode, switches the tokenizer's pad token
     * to the mode's, and embeds each text with the mode's tokenizer
     * arguments.
     */
    method Forward(texts: seq<string>, embed: TokenizerCall -> Matrix, truncation: bool := true,
                   addSpecialTokens: bool := false, queryMode: bool := true, kwargs: map<string, Arg> := map[])
      returns (embeddings: seq<Matrix>)
      modifies this
      ensures padToken == PadTokenFor(queryMode)
      ensures |embeddings| == |texts|
      ensures forall i :: 0 <= i < |texts| ==>
                embeddings[i] == embed(CallFor(texts[i], queryMode, truncation, addSpecialTokens, kwargs))
    {
      var marked := Prefixed(texts, queryMode);
      padToken := if queryMode then queryPadToken else originalPadToken;
      var pad := padToken;
      var config := ForwardKwargs(queryMode, truncation, addSpecialTokens, kwargs);
      embeddings := seq(|marked|, i requires 0 <= i < |marked| => embed(TokenizerCall(marked[i], pad, config)));
      assert forall i :: 0 <= i < |texts| ==> marked[i] == Marker(queryMode) + texts[i];
    }

    /** Query-mode embedding of a query text, as `scores` requests it. */
    function QueryEmbedding(text: string, truncation: bool, addSpecialTokens: bool, embed: TokenizerCall -> Matrix)
      : Matrix
    {
      embed(CallFor(text, true, truncation, addSpecialTokens, map[]))
    }

    /** Document-mode embedding of a document text, padded to `maxLength` tokens. */
    function DocumentEmbedding(text: string, truncation: bool, addSpecialTokens: bool, maxLength: int,
                               embed: TokenizerCall -> Matrix): Matrix
    {
      embed(CallFor(text, false, truncation, addSpecialTokens, map["max_length" := IntArg(maxLength)]))
    }

    /** Embedding in query mode, as a function of the text. */
    function QueryEmbedder(truncation: bool, addSpecialTokens: bool, embed: TokenizerCall -> Matrix)
      : string -> Matrix
    {
      text => QueryEmbedding(text, truncation, addSpecialTokens, embed)
    }

    /** Embedding in document mode, as a function of the text. */
    function DocumentEmbedder(truncation: bool, addSpecialTokens: bool, maxLength: int, embed: TokenizerCall -> Matrix)
      : string -> Matrix
    {
      text => DocumentEmbedding(text, truncation, addSpecialTokens, maxLength, embed)
    }

    /** The query-mode embeddings of all the query texts. */
    function QueryEmbeddings(queries: seq<string>, truncation: bool, addSpecialTokens: bool,
                             embed: TokenizerCall -> Matrix): seq<Matrix>
    {
      Map(queries, QueryEmbedder(truncation, addSpecialTokens, embed))
    }

    /** The document-mode embeddings of all the document texts. */
    function DocumentEmbeddings(documents: seq<string>, truncation: bool, addSpecialTokens: bool, maxLength: int,
                                embed: TokenizerCall -> Matrix): seq<Matrix>
    {
      Map(documents, DocumentEmbedder(truncation, addSpecialTokens, maxLength, embed))
    }

    /**
     * What `scores` demands of the shapes: every zipped batch holds as many
     * queries as documents or a single item on one side, and each pair the
     * zip scores has a non-empty document matching its query's dimension.
     */
    ghost predicate CanPair(queries: seq<string>, documents: seq<string>, batchSize: nat, truncation: bool,
                            addSpecialTokens: bool, maxLength: int, embed: TokenizerCall -> Matrix)
      requires batchSize > 0
    {
      && (forall j :: 0 <= j < ZippedBatchCount(|queries|, |documents|, batchSize) ==>
            Broadcastable(BatchLen(|queries|, batchSize, j), BatchLen(|documents|, batchSize, j)))
      && PairsScorable(QueryEmbeddings(queries, truncation, addSpecialTokens, embed),
                       DocumentEmbeddings(documents, truncation, addSpecialTokens, maxLength, embed),
                       ZipPairs(|queries|, |documents|, batchSize,
                                ZippedBatchCount(|queries|, |documents|, batchSize)))
    }

    /** The score of every pair the zip of the two batchings forms, in order. */
    ghost function ZippedScores(queries: seq<string>, documents: seq<string>, batchSize: nat, truncation: bool,
                                addSpecialTokens: bool, maxLength: int, embed: TokenizerCall -> Matrix): seq<int>
      requires batchSize > 0
      requires CanPair(queries, documents, batchSize, truncation, addSpecialTokens, maxLength, embed)
    {
      PairListScores(QueryEmbeddings(queries, truncation, addSpecialTokens, embed),
                     DocumentEmbeddings(documents, truncation, addSpecialTokens, maxLength, embed),
                     ZipPairs(|queries|, |documents|, batchSize,
                              ZippedBatchCount(|queries|, |documents|, batchSize)))
    }

    /**
     * Score i is MaxSim of the query the zip puts first in pair i, embedded
     * in query mode, against the pair's document, embedded in document mode.
     */
    lemma ZippedScoresAt(queries: seq<string>, documents: seq<string>, batchSize: nat, truncation: bool,
                         addSpecialTokens: bool, maxLength: int, embed: TokenizerCall -> Matrix, i: nat)
      requires batchSize > 0
      requires CanPair(queries, documents, batchSize, truncation, addSpecialTokens, maxLength, embed)
      requires i < |ZipPairs(|queries|, |documents|, batchSize, ZippedBatchCount(|queries|, |documents|, batchSize))|
      ensures var p := ZipPairs(|queries|, |documents|, batchSize, ZippedBatchCount(|queries|, |documents|, batchSize))[i];
              && p.0 < |queries| && p.1 < |documents|
              && var qe := QueryEmbedding(queries[p.0], truncation, addSpecialTokens, embed);
              var de := DocumentEmbedding(documents[p.1], truncation, addSpecialTokens, maxLength, embed);
              && |de| > 0 && Aligned(qe, de)
              && ZippedScores(queries, documents, batchSize, truncation, addSpecialTokens, maxLength, embed)[i]
                 == MaxSim(qe, de)
    {
      var p := ZipPairs(|queries|, |documents|, batchSize, ZippedBatchCount(|queries|, |documents|, batchSize))[i];
      var qs := QueryEmbeddings(queries, truncation, addSpecialTokens, embed);
      var ds := DocumentEmbeddings(documents, truncation, addSpecialTokens, maxLength, embed);
      assert qs[p.0] == QueryEmbedding(queries[p.0], truncation, addSpecialTokens, embed);
      assert ds[p.1] == DocumentEmbedding(documents[p.1], truncation, addSpecialTokens, maxLength, embed);
    }

    /**
     * With as many queries as documents, score i is query i against
     * document i, whatever the batch size.
     */
    lemma ZippedScoresOfEqualLengths(queries: seq<string>, documents: seq<string>, batchSize: nat, truncation: bool,
                                     addSpecialTokens: bool, maxLength: int, embed: TokenizerCall -> Matrix)
      requires batchSize > 0 && |queries| == |documents|
      requires CanPair(queries, documents, batchSize, truncation, addSpecialTokens, maxLength, embed)
      ensures var scores := ZippedScores(queries, documents, batchSize, truncation, addSpecialTokens, maxLength, embed);
              && |scores| == |queries|
              && forall i :: 0 <= i < |queries| ==>
                   var qe := QueryEmbedding(queries[i], truncation, addSpecialTokens, embed);
                   var de := DocumentEmbedding(documents[i], truncation, addSpecialTokens, maxLength, embed);
                   |de| > 0 && Aligned(qe, de) && scores[i] == MaxSim(qe, de)
    {
      var pairs := ZipPairs(|queries|, |documents|, batchSize, ZippedBatchCount(|queries|, |documents|, batchSize));
      ZipPairsOfEqualLengths(|queries|, batchSize);
      forall i | 0 <= i < |queries|
        ensures var qe := QueryEmbedding(queries[i], truncation, addSpecialTokens, embed);
                var de := DocumentEmbedding(documents[i], truncation, addSpecialTokens, maxLength, embed);
                |de| > 0 && Aligned(qe, de)
                && ZippedScores(queries, documents, batchSize, truncation, addSpecialTokens, maxLength, embed)[i]
                   == MaxSim(qe, de)
      {
        assert pairs[i] == (i, i);
        ZippedScoresAt(queries, documents, batchSize, truncation, addSpecialTokens, maxLength, embed, i);
      }
    }

    /**
     * A single query with one batch of documents is scored against every
     * document: the size-1 query batch broadcasts.
     */
    lemma ZippedScoresOfOneQuery(queries: seq<string>, documents: seq<string>, batchSize: nat, truncation: bool,
                                 addSpecialTokens: bool, maxLength: int, embed: TokenizerCall -> Matrix)
      requires |queries| == 1 && 0 < |documents| <= batchSize
      requires CanPair(queries, documents, batchSize, truncation, addSpecialTokens, maxLength, embed)
      ensures var scores := ZippedScores(queries, documents, batchSize, truncation, addSpecialTokens, maxLength, embed);
              && |scores| == |documents|
              && forall t :: 0 <= t < |documents| ==>
                   var qe := QueryEmbedding(queries[0], truncation, addSpecialTokens, embed);
                   var de := DocumentEmbedding(documents[t], truncation, addSpecialTokens, maxLength, embed);
                   |de| > 0 && Aligned(qe, de) && scores[t] == MaxSim(qe, de)
    {
      var pairs := ZipPairs(|queries|, |documents|, batchSize, ZippedBatchCount(|queries|, |documents|, batchSize));
      OneQueryAgainstOneBatch(|documents|, batchSize);
      forall t | 0 <= t < |documents|
        ensures var qe := QueryEmbedding(queries[0], truncation, addSpecialTokens, embed);
                var de := DocumentEmbedding(documents[t], truncation, addSpecialTokens, maxLength, embed);
                |de| > 0 && Aligned(qe, de)
                && ZippedScores(queries, documents, batchSize, truncation, addSpecialTokens, maxLength, embed)[t]
                   == MaxSim(qe, de)
      {
        assert pairs[t] == (0, t);
        ZippedScoresAt(queries, documents, batchSize, truncation, addSpecialTokens, maxLength, embed, t);
      }
    }

    /** Scoring zipped batch j extends the concatenated scores by the scores of that batch's pairs. */
    lemma PairBatchStep(queries: seq<string>, documents: seq<string>, batchSize: nat, truncation: bool,
                        addSpecialTokens: bool, maxLength: int, embed: TokenizerCall -> Matrix, j: nat,
                        qe: seq<Matrix>, de: seq<Matrix>, done: seq<seq<int>>)
      requires batchSize > 0
      requires CanPair(queries, documents, batchSize, truncation, addSpecialTokens, maxLength, embed)
      requires j < |Batchify(queries, batchSize)| && j < |Batchify(documents, batchSize)|
      requires |qe| == |Batchify(queries, batchSize)[j]| && |de| == |Batchify(documents, batchSize)[j]|
      requires forall b :: 0 <= b < |qe| ==>
                 qe[b] == QueryEmbedding(Batchify(queries, batchSize)[j][b], truncation, addSpecialTokens, embed)
      requires forall b :: 0 <= b < |de| ==>
                 de[b] == DocumentEmbedding(Batchify(documents, batchSize)[j][b], truncation, addSpecialTokens,
                                            maxLength, embed)
      requires var qs := QueryEmbeddings(queries, truncation, addSpecialTokens, embed);
               var ds := DocumentEmbeddings(documents, truncation, addSpecialTokens, maxLength, embed);
               var pairs := ZipPairs(|queries|, |documents|, batchSize, j);
               PairsScorable(qs, ds, pairs) && Flatten(done) == PairListScores(qs, ds, pairs)
      ensures Pairable(qe, de)
      ensures var qs := QueryEmbeddings(queries, truncation, addSpecialTokens, embed);
              var ds := DocumentEmbeddings(documents, truncation, addSpecialTokens, maxLength, embed);
              var pairs := ZipPairs(|queries|, |documents|, batchSize, j + 1);
              PairsScorable(qs, ds, pairs) && Flatten(done + [PairScores(qe, de)]) == PairListScores(qs, ds, pairs)
    {
      var qs := QueryEmbeddings(queries, truncation, addSpecialTokens, embed);
      var ds := DocumentEmbeddings(documents, truncation, addSpecialTokens, maxLength, embed);
      BatchifyCount(queries, batchSize);
      BatchifyCount(documents, batchSize);
      BatchItems(queries, batchSize, j);
      BatchItems(documents, batchSize, j);
      MappedBatch(queries, batchSize, j, QueryEmbedder(truncation, addSpecialTokens, embed), qe);
      MappedBatch(documents, batchSize, j, DocumentEmbedder(truncation, addSpecialTokens, maxLength, embed), de);
      ZippedBatchStep(qs, ds, batchSize, j, qe, de, done);
    }

    /**
     * `scores`: walks the queries and the documents in batches side by side
     * (a zip, which stops with the shorter batching), embeds each batch in
     * its mode and scores the batch pairwise, a single-item batch
     * broadcasting against the other side. The concatenated scores are the
     * scores of the zip's pairs, in order; torch.cat fails when there is no
     * batch at all.
     */
    method Scores(queries: seq<string>, documents: seq<string>, embed: TokenizerCall -> Matrix,
                  batchSize: nat := 2, truncation: bool := true, addSpecialTokens: bool := false,
                  maxLength: int := 500)
      returns (r: Option<seq<int>>)
      requires batchSize > 0
      requires CanPair(queries, documents, batchSize, truncation, addSpecialTokens, maxLength, embed)
      modifies this
      ensures r.None? <==> |queries| == 0 || |documents| == 0
      ensures r.Some? ==>
                r.value == ZippedScores(queries, documents, batchSize, truncation, addSpecialTokens, maxLength, embed)
      ensures padToken == if r.Some? then originalPadToken else old(padToken)
    {
      ghost var qs := QueryEmbeddings(queries, truncation, addSpecialTokens, embed);
      ghost var ds := DocumentEmbeddings(documents, truncation, addSpecialTokens, maxLength, embed);
      var queryBatches := Batchify(queries, batchSize);
      var documentBatches := Batchify(documents, batchSize);
      BatchifyCount(queries, batchSize);
      BatchifyCount(documents, batchSize);
      var pairs := Min(|queryBatches|, |documentBatches|);
      var listScores: seq<seq<int>> := [];
      for j := 0 to pairs
        invariant |listScores| == j
        invariant PairsScorable(qs, ds, ZipPairs(|queries|, |documents|, batchSize, j))
        invariant Flatten(listScores) == PairListScores(qs, ds, ZipPairs(|queries|, |documents|, batchSize, j))
        invariant padToken == if j > 0 then originalPadToken else old(padToken)
      {
        var queriesEmbeddings := Forward(queryBatches[j], embed, truncation, addSpecialTokens, queryMode := true);
        var documentsEmbeddings := Forward(documentBatches[j], embed, truncation, addSpecialTokens, queryMode := false,
                                           kwargs := map["max_length" := IntArg(maxLength)]);
        PairBatchStep(queries, documents, batchSize, truncation, addSpecialTokens, maxLength, embed, j,
                      queriesEmbeddings, documentsEmbeddings, listScores);
        var lateInteractions := PairScores(queriesEmbeddings, documentsEmbeddings);
        listScores := listScores + [lateInteractions];
      }
      r := Cat(listScores);
    }

    /** Of `save_pretrained`, the model keeps only the restoring of the original pad token. */
    method SavePretrained() returns (self: Encoder)
      modifies this
      ensures padToken == originalPadToken && self == this
    {
      padToken := originalPadToken;
      self := this;
    }
  }
}
