/**
 * The ColBERT retriever: an in-memory store of per-document token
 * embeddings, batched late-interaction scoring of every query against
 * every stored document, and top-k ranking of the scores.
 */
module RetrieveColBERT {
  import opened Wrappers
  import opened LateInteraction
  import opened Batching
  import opened TopKSelection

  /** A value in a result record: a document key, or a similarity score. */
  datatype Field = Key(id: string) | Similarity(score: int)

  type Record = map<string, Field>

  const SIMILARITY: string := "similarity"

  datatype RetrieveError =
    | EmptyStore  // torch.cat over no batch scores: a query against an empty store
    | InvalidK    // torch.topk asked for a negative number of results

  /** The record the store keeps for a document: its key under the key field. */
  function RecordOf(keyField: string, id: string): Record
  {
    map[keyField := Key(id)]
  }

  /** A stored record with the score merged in; the score wins a name clash. */
  function Merged(r: Record, score: int): (m: Record)
    ensures m.Keys == r.Keys + {SIMILARITY}
    ensures m[SIMILARITY] == Similarity(score)
    ensures forall f :: f in r && f != SIMILARITY ==> m[f] == r[f]
  {
    r[SIMILARITY := Similarity(score)]
  }

  /** How many results a ranking asks torch.topk for: k clamped to n, all when k is None. */
  function Clamp(k: Option<int>, n: nat): (m: int)
    ensures k.None? ==> m == n
    ensures k.Some? ==> m <= n && m <= k.value && (m == n || m == k.value)
  {
    if k.Some? then Min(k.value, n) else n
  }

  /** The ranked list for one query: the top m documents, each merged with its score. */
  function RankedList(scores: seq<int>, documents: seq<Record>, m: nat): (ranked: seq<Record>)
    requires |scores| == |documents|
    ensures |ranked| == Min(m, |documents|)
  {
    var top := TopK(scores, m);
    seq(|top|, a requires 0 <= a < |top| => Merged(documents[top[a]], scores[top[a]]))
  }

  function Score(r: Record): int
  {
    if SIMILARITY in r && r[SIMILARITY].Similarity? then r[SIMILARITY].score else 0
  }

  /**
   * A ranked list holds min(m, n) entries, each the selected document's
   * record with its own score as `similarity`, in non-increasing order of
   * similarity, over distinct documents, and no document left out scores
   * strictly higher than one selected.
   */
  lemma RankedListCorrect(scores: seq<int>, documents: seq<Record>, m: nat)
    requires |scores| == |documents|
    ensures |RankedList(scores, documents, m)| == Min(m, |scores|)
    ensures var top := TopK(scores, m); var ranked := RankedList(scores, documents, m);
      forall a :: 0 <= a < |ranked| ==>
        top[a] < |documents| && ranked[a] == Merged(documents[top[a]], scores[top[a]]) &&
        Score(ranked[a]) == scores[top[a]]
    ensures var top := TopK(scores, m); var ranked := RankedList(scores, documents, m);
      forall a, b :: 0 <= a < b < |ranked| ==> top[a] != top[b] && Score(ranked[a]) >= Score(ranked[b])
    ensures var top := TopK(scores, m); var ranked := RankedList(scores, documents, m);
      forall j, a :: 0 <= j < |scores| && j !in top && 0 <= a < |ranked| ==> scores[j] <= Score(ranked[a])
  {
    TopKCorrect(scores, m);
  }

  /** The abstract store: keys in insertion order and the key-to-embeddings map. */
  datatype Store = Store(keys: seq<string>, embeddings: map<string, Matrix>)

  /** The embeddings of the stored keys, in key order. */
  function Embeddings(s: Store): (e: seq<Matrix>)
    requires forall j :: 0 <= j < |s.keys| ==> s.keys[j] in s.embeddings
    ensures |e| == |s.keys|
  {
    seq(|s.keys|, j requires 0 <= j < |s.keys| => s.embeddings[s.keys[j]])
  }

  /** Keys are unique and the ordered key list and the map hold the same keys. */
  ghost predicate Synced(s: Store)
  {
    && (forall i, j :: 0 <= i < j < |s.keys| ==> s.keys[i] != s.keys[j])
    && (forall key :: key in s.embeddings <==> key in s.keys)
  }

  /** One step of `add`: a key already stored is skipped. */
  function InsertKey(s: Store, key: string, e: Matrix): (r: Store)
    ensures r.embeddings.Keys == s.embeddings.Keys + {key}
    ensures r.embeddings[key] == if key in s.embeddings then s.embeddings[key] else e
  {
    if key in s.embeddings then s else Store(s.keys + [key], s.embeddings[key := e])
  }

  /** The store after `add` walks `items` in order. */
  function InsertAll(s: Store, items: seq<(string, Matrix)>): Store
    decreases |items|
  {
    if |items| == 0 then s
    else
      var last := items[|items| - 1];
      InsertKey(InsertAll(s, items[..|items| - 1]), last.0, last.1)
  }

  function KeySet(items: seq<(string, Matrix)>): set<string>
  {
    set i | 0 <= i < |items| :: items[i].0
  }

  /**
   * The keys of `items` that are new, in iteration order, each once: an
   * independent description of what `add` appends to the key list.
   */
  function NewKeys(seen: set<string>, items: seq<(string, Matrix)>): seq<string>
    decreases |items|
  {
    if |items| == 0 then []
    else if items[0].0 in seen then NewKeys(seen, items[1..])
    else [items[0].0] + NewKeys(seen + {items[0].0}, items[1..])
  }

  lemma {:induction false} InsertAllKeepsSynced(s: Store, items: seq<(string, Matrix)>)
    requires Synced(s)
    ensures Synced(InsertAll(s, items))
    decreases |items|
  {
    if |items| > 0 {
      InsertAllKeepsSynced(s, items[..|items| - 1]);
    }
  }

  /** First write wins: no stored key changes its embeddings, and old keys stay first. */
  lemma {:induction false} InsertAllFirstWriteWins(s: Store, items: seq<(string, Matrix)>)
    ensures |s.keys| <= |InsertAll(s, items).keys|
    ensures InsertAll(s, items).keys[..|s.keys|] == s.keys
    ensures forall key :: key in s.embeddings ==>
              key in InsertAll(s, items).embeddings && InsertAll(s, items).embeddings[key] == s.embeddings[key]
    decreases |items|
  {
    if |items| > 0 {
      InsertAllFirstWriteWins(s, items[..|items| - 1]);
    }
  }

  /** After `add`, the stored keys are the old ones and the added ones. */
  lemma {:induction false} InsertAllKeys(s: Store, items: seq<(string, Matrix)>)
    ensures InsertAll(s, items).embeddings.Keys == s.embeddings.Keys + KeySet(items)
    decreases |items|
  {
    if |items| > 0 {
      var init := items[..|items| - 1];
      InsertAllKeys(s, init);
      assert KeySet(items) == KeySet(init) + {items[|items| - 1].0} by {
        forall key | key in KeySet(items) ensures key in KeySet(init) + {items[|items| - 1].0} {
          var i :| 0 <= i < |items| && items[i].0 == key;
          if i < |items| - 1 { assert init[i] == items[i]; }
        }
        forall key | key in KeySet(init) ensures key in KeySet(items) {
          var i :| 0 <= i < |init| && init[i].0 == key;
          assert items[i] == init[i];
        }
      }
    }
  }

  /** A new key keeps the embeddings of its first occurrence in `items`. */
  lemma {:induction false} InsertAllFirstOccurrence(s: Store, items: seq<(string, Matrix)>, i: nat)
    requires i < |items| && items[i].0 !in s.embeddings
    requires forall j :: 0 <= j < i ==> items[j].0 != items[i].0
    ensures items[i].0 in InsertAll(s, items).embeddings
    ensures InsertAll(s, items).embeddings[items[i].0] == items[i].1
    decreases |items|
  {
    var init := items[..|items| - 1];
    if i < |items| - 1 {
      InsertAllFirstOccurrence(s, init, i);
    } else {
      InsertAllKeys(s, init);
      assert items[i].0 !in KeySet(init);
    }
  }

  lemma {:induction false} NewKeysSnoc(seen: set<string>, items: seq<(string, Matrix)>, x: (string, Matrix))
    ensures NewKeys(seen, items + [x]) ==
            NewKeys(seen, items) + (if x.0 in seen || x.0 in KeySet(items) then [] else [x.0])
    decreases |items|
  {
    if |items| == 0 {
      assert [x][1..] == [];
    } else {
      assert (items + [x])[1..] == items[1..] + [x];
      var k0 := items[0].0;
      assert KeySet(items) == {k0} + KeySet(items[1..]) by {
        forall key | key in KeySet(items) ensures key in {k0} + KeySet(items[1..]) {
          var i :| 0 <= i < |items| && items[i].0 == key;
          if i > 0 { assert items[1..][i - 1] == items[i]; }
        }
        forall key | key in KeySet(items[1..]) ensures key in KeySet(items) {
          var i :| 0 <= i < |items[1..]| && items[1..][i].0 == key;
          assert items[i + 1] == items[1..][i];
        }
      }
      if k0 in seen {
        NewKeysSnoc(seen, items[1..], x);
      } else {
        NewKeysSnoc(seen + {k0}, items[1..], x);
      }
    }
  }

  /** `add` appends exactly the new keys, in the order it meets them, each once. */
  lemma {:induction false} InsertAllAppendsNewKeys(s: Store, items: seq<(string, Matrix)>)
    ensures InsertAll(s, items).keys == s.keys + NewKeys(s.embeddings.Keys, items)
    decreases |items|
  {
    if |items| > 0 {
      var init := items[..|items| - 1];
      var last := items[|items| - 1];
      InsertAllAppendsNewKeys(s, init);
      InsertAllKeys(s, init);
      assert init + [last] == items;
      NewKeysSnoc(s.embeddings.Keys, init, last);
    }
  }

  lemma {:induction false} InsertAllOfStoredKeys(t: Store, items: seq<(string, Matrix)>)
    requires KeySet(items) <= t.embeddings.Keys
    ensures InsertAll(t, items) == t
    decreases |items|
  {
    if |items| > 0 {
      var init := items[..|items| - 1];
      assert KeySet(init) <= KeySet(items) by {
        forall key | key in KeySet(init) ensures key in KeySet(items) {
          var i :| 0 <= i < |init| && init[i].0 == key;
          assert items[i] == init[i];
        }
      }
      InsertAllOfStoredKeys(t, init);
      assert items[|items| - 1].0 in KeySet(items);
    }
  }

  /** Adding the same embeddings a second time changes nothing. */
  lemma InsertAllIdempotent(s: Store, items: seq<(string, Matrix)>)
    ensures InsertAll(InsertAll(s, items), items) == InsertAll(s, items)
  {
    InsertAllKeys(s, items);
    InsertAllOfStoredKeys(InsertAll(s, items), items);
  }

  class Retriever {
    /** Name of the record field that holds a document's key. */
    const key: string
    /** One record per stored document, in insertion order. */
    var documents: seq<Record>
    /** Token embeddings by document key. */
    var documentsEmbeddings: map<string, Matrix>
    /** The stored keys in insertion order. */
    ghost var keys: seq<string>

    ghost predicate Valid()
      reads this
    {
      && |documents| == |keys|
      && (forall i :: 0 <= i < |keys| ==> documents[i] == RecordOf(key, keys[i]))
      && Synced(Store(keys, documentsEmbeddings))
    }

    ghost function Model(): Store
      reads this
    {
      Store(keys, documentsEmbeddings)
    }

    constructor (key: string)
      ensures Valid() && this.key == key && Model() == Store([], map[]) && documents == []
    {
      this.key := key;
      documents := [];
      documentsEmbeddings := map[];
      keys := [];
    }

    /** Stores each document not stored yet, in iteration order; returns the retriever. */
    method Add(items: seq<(string, Matrix)>) returns (self: Retriever)
      requires Valid()
      modifies this
      ensures Valid() && self == this
      ensures Model() == InsertAll(old(Model()), items)
    {
      for i := 0 to |items|
        invariant Valid()
        invariant Model() == InsertAll(old(Model()), items[..i])
      {
        var (documentKey, tokensEmbeddings) := items[i];
        assert items[..i + 1][..i] == items[..i];
        if documentKey !in documentsEmbeddings {
          documents := documents + [RecordOf(key, documentKey)];
          documentsEmbeddings := documentsEmbeddings[documentKey := tokensEmbeddings];
          keys := keys + [documentKey];
        }
      }
      assert items[..|items|] == items;
      self := this;
    }

    /** The stored token embeddings in store order. */
    ghost function StoredEmbeddings(): (e: seq<Matrix>)
      reads this
      requires Valid()
      ensures |e| == |keys|
      ensures forall j :: 0 <= j < |keys| ==> keys[j] in documentsEmbeddings && e[j] == documentsEmbeddings[keys[j]]
    {
      assert forall j :: 0 <= j < |keys| ==> keys[j] in keys;
      Embeddings(Model())
    }

    /** Looks up the embeddings of each record of a batch by its key. */
    function BatchEmbeddings(batch: seq<Record>): (e: seq<Matrix>)
      reads this
      requires forall b :: 0 <= b < |batch| ==>
                 key in batch[b] && batch[b][key].Key? && batch[b][key].id in documentsEmbeddings
      ensures |e| == |batch|
    {
      var stored := documentsEmbeddings;
      seq(|batch|, b requires 0 <= b < |batch| => stored[batch[b][key].id])
    }

    lemma BatchEmbeddingsOfSlice(lo: nat, hi: nat)
      requires Valid() && lo <= hi <= |keys|
      ensures forall b :: 0 <= b < hi - lo ==>
                key in documents[lo..hi][b] && documents[lo..hi][b][key].Key? &&
                documents[lo..hi][b][key].id in documentsEmbeddings
      ensures BatchEmbeddings(documents[lo..hi]) == StoredEmbeddings()[lo..hi]
    {
      assert forall b :: 0 <= b < hi - lo ==> documents[lo..hi][b] == documents[lo + b];
      assert forall j :: 0 <= j < |keys| ==> keys[j] in keys;
    }

    /**
     * What torch demands to score query q batch by batch: every stored
     * document is non-empty and matches q's dimension, all token rows share
     * one width (the query tensor has one, even with no rows), and the
     * documents of each batch stack into one tensor.
     */
    ghost predicate CanScore(q: Matrix, batchSize: nat)
      reads this
      requires Valid() && batchSize > 0
    {
      && Scorable(q, StoredEmbeddings())
      && SameWidth(StoredEmbeddings())
      && forall j :: 0 <= j < |Batchify(StoredEmbeddings(), batchSize)| ==>
           Stackable(Batchify(StoredEmbeddings(), batchSize)[j])
    }

    /** The score of every stored document for query q, in store order. */
    ghost function StoreScores(q: Matrix): (scores: seq<int>)
      reads this
      requires Valid() && Scorable(q, StoredEmbeddings())
      ensures |scores| == |keys|
      ensures forall i :: 0 <= i < |keys| ==> scores[i] == MaxSim(q, documentsEmbeddings[keys[i]])
    {
      ScoresOf(q, StoredEmbeddings())
    }

    /** Batch j of the records and batch j of the embeddings cover the same slice of the store. */
    lemma BatchSlice(batchSize: nat, j: nat)
      requires Valid() && batchSize > 0 && j < |Batchify(documents, batchSize)|
      ensures BatchStart(j, batchSize) < |keys| && j < |Batchify(StoredEmbeddings(), batchSize)|
      ensures Batchify(documents, batchSize)[j] == documents[BatchStart(j, batchSize) .. Min(BatchStart(j, batchSize) + batchSize, |keys|)]
      ensures Batchify(StoredEmbeddings(), batchSize)[j]
              == StoredEmbeddings()[BatchStart(j, batchSize) .. Min(BatchStart(j, batchSize) + batchSize, |keys|)]
    {
      BatchifyCount(documents, batchSize);
      BatchifyCount(StoredEmbeddings(), batchSize);
      BatchifyAt(documents, batchSize, j);
      BatchifyAt(StoredEmbeddings(), batchSize, j);
    }

    /** The records of batch j hold stored keys, and looking them up gives slice j of the stored embeddings. */
    lemma BatchRecords(batchSize: nat, j: nat)
      requires Valid() && batchSize > 0 && j < |Batchify(documents, batchSize)|
      ensures BatchStart(j, batchSize) < |keys| && j < |Batchify(StoredEmbeddings(), batchSize)|
      ensures var batch: seq<Record> := Batchify(documents, batchSize)[j];
        && (forall b :: 0 <= b < |batch| ==>
             key in batch[b] && batch[b][key].Key? && batch[b][key].id in documentsEmbeddings)
        && BatchEmbeddings(batch) == Batchify(StoredEmbeddings(), batchSize)[j]
        && BatchEmbeddings(batch) == StoredEmbeddings()[BatchStart(j, batchSize) .. Min(BatchStart(j, batchSize) + batchSize, |keys|)]
    {
      var start := BatchStart(j, batchSize);
      var end := Min(start + batchSize, |keys|);
      BatchSlice(batchSize, j);
      BatchEmbeddingsOfSlice(start, end);
    }

    /** Batch j of the store, looked up and scored, gives slice j of the store's scores. */
    lemma BatchStep(q: Matrix, batchSize: nat, j: nat)
      requires Valid() && batchSize > 0 && CanScore(q, batchSize)
      requires j < |Batchify(documents, batchSize)|
      ensures BatchStart(j, batchSize) < |keys|
      ensures var batch: seq<Record> := Batchify(documents, batchSize)[j];
        && (forall b :: 0 <= b < |batch| ==>
             key in batch[b] && batch[b][key].Key? && batch[b][key].id in documentsEmbeddings)
        && Stackable(BatchEmbeddings(batch)) && Scorable(q, BatchEmbeddings(batch))
        && BatchScores(q, BatchEmbeddings(batch))
           == StoreScores(q)[BatchStart(j, batchSize) .. Min(BatchStart(j, batchSize) + batchSize, |keys|)]
    {
      var start := BatchStart(j, batchSize);
      var end := Min(start + batchSize, |keys|);
      BatchRecords(batchSize, j);
      ScoresOfSlice(q, StoredEmbeddings(), start, end);
      var batch := Batchify(StoredEmbeddings(), batchSize)[j];
      assert Stackable(batch) && batch == StoredEmbeddings()[start..end];
      BatchScoresAreScoresOf(q, batch);
    }

    /**
     * The per-batch score vectors for query q. Their concatenation is
     * the store-order score vector, whatever the batch size: document j's
     * score is MaxSim(q, its embeddings) wherever its batch falls.
     */
    method ScoreQuery(q: Matrix, batchSize: nat) returns (queryScores: seq<seq<int>>)
      requires Valid() && batchSize > 0 && CanScore(q, batchSize)
      ensures |queryScores| == BatchCount(|keys|, batchSize)
      ensures Flatten(queryScores) == StoreScores(q)
    {
      ghost var all := StoreScores(q);
      var batches := Batchify(documents, batchSize);
      BatchifyCount(documents, batchSize);
      queryScores := [];
      for j := 0 to |batches|
        invariant |queryScores| == j
        invariant Flatten(queryScores) == all[..Min(BatchStart(j, batchSize), |keys|)]
      {
        BatchStep(q, batchSize, j);
        var scores := BatchScores(q, BatchEmbeddings(batches[j]));
        ConcatStep(queryScores, scores, all, j, batchSize);
        queryScores := queryScores + [scores];
      }
      assert all[..Min(BatchStart(|batches|, batchSize), |keys|)] == all;
    }

    /**
     * Ranks every stored document for each query, in the queries' order.
     * A query against an empty store fails (torch.cat of nothing) before
     * any ranking; a negative k fails in ranking.
     */
    method Call(queries: seq<(string, Matrix)>, batchSize: nat := 32, k: Option<int> := None)
      returns (r: Result<seq<seq<Record>>, RetrieveError>)
      requires Valid() && batchSize > 0
      requires forall i {:trigger queries[i]} :: 0 <= i < |queries| ==> CanScore(queries[i].1, batchSize)
      ensures forall i :: 0 <= i < |queries| ==> Scorable(queries[i].1, StoredEmbeddings())
      ensures r.Failure? <==> |queries| > 0 && (|keys| == 0 || (k.Some? && k.value < 0))
      ensures r.Failure? ==> r.error == (if |keys| == 0 then EmptyStore else InvalidK)
      ensures r.Success? ==> |r.value| == |queries| && (|queries| > 0 ==> Clamp(k, |documents|) >= 0)
      ensures r.Success? ==> forall i :: 0 <= i < |queries| ==>
                r.value[i] == RankedList(StoreScores(queries[i].1), documents, Clamp(k, |documents|))
    {
      var scores: seq<seq<int>> := [];
      for i := 0 to |queries|
        invariant |scores| == i
        invariant i > 0 ==> |keys| > 0
        invariant forall i' :: 0 <= i' < i ==> scores[i'] == StoreScores(queries[i'].1)
      {
        var queryScores := ScoreQuery(queries[i].1, batchSize);
        var concatenated := Cat(queryScores);
        if concatenated.None? {
          return Failure(EmptyStore);
        }
        scores := scores + [concatenated.value];
      }
      r := Rank(scores, documents, k);
    }

    /** `_rank`: one ranked list per score vector, in order. */
    method Rank(scores: seq<seq<int>>, records: seq<Record>, k: Option<int>)
      returns (r: Result<seq<seq<Record>>, RetrieveError>)
      requires forall i :: 0 <= i < |scores| ==> |scores[i]| == |records|
      ensures r.Failure? <==> |scores| > 0 && k.Some? && k.value < 0
      ensures r.Failure? ==> r.error == InvalidK
      ensures r.Success? ==> |r.value| == |scores| && (|scores| > 0 ==> Clamp(k, |records|) >= 0)
      ensures r.Success? ==> forall i :: 0 <= i < |scores| ==>
                r.value[i] == RankedList(scores[i], records, Clamp(k, |records|))
    {
      var ranked: seq<seq<Record>> := [];
      for i := 0 to |scores|
        invariant |ranked| == i
        invariant i > 0 ==> Clamp(k, |records|) >= 0
        invariant forall i' :: 0 <= i' < i ==> ranked[i'] == RankedList(scores[i'], records, Clamp(k, |records|))
      {
        var m := if k.Some? then Min(k.value, |records|) else |records|;
        if m < 0 {
          return Failure(InvalidK);
        }
        ranked := ranked + [RankedList(scores[i], records, m)];
      }
      r := Success(ranked);
    }
  }
}
