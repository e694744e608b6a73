# ColBERT late-interaction retrieval, modelled in Dafny

This project models the core of a ColBERT retrieval engine:

- **The document store** of the retriever `ColBERT`. It keeps an insertion-ordered list of document records `{key: id}` and a dictionary from id to token embeddings. `add` stores each id not seen yet, so the first write wins.
- **Batched MaxSim scoring** (`__call__`). For each query, the store is walked in consecutive batches. Each document's score is the sum, over query tokens, of the best dot product with any of its tokens. The per-batch vectors are concatenated back into one vector in store order.
- **Top-k ranking** (`_rank`). k is clamped to the corpus size, and `None` means all. The highest scores come first. Each chosen record is merged with a `similarity` field.
- **The encoder's scoring** (`scores`). Queries and documents are batched side by side, and each pair of batches is scored pairwise: query b against document b, or, when one batch holds a single item, that item against every item of the other batch (einsum's broadcasting). There is never a cross product. This part also covers `forward`: the `"[Q] "`/`"[D] "` marker, the pad token of each mode, and the tokenizer arguments, where the caller's kwargs override the defaults. `save_pretrained` restores the original pad token.

The source's default arguments are the methods' default parameter values: `batch_size=32` and `k=None` for `__call__`; `truncation=True`, `add_special_tokens=False` and `query_mode=True` for `forward`; and `batch_size=2`, `truncation=True`, `add_special_tokens=False` and `max_length=500` for `scores`. So a caller of `scores` who omits `max_length` has documents padded to 500 tokens, not to the document-mode maximum.

Embeddings are `seq<seq<int>>`, one row per token. The language model is the function parameter `embed`, which maps what the tokenizer receives for one text to that text's token embeddings.

Modules:
- `Wrappers`: Option, Result and Min.
- `LateInteraction`: Dot, MaxDot and MaxSim, and the characterisation of MaxSim as the best alignment of query tokens to document tokens.
- `Batching`: `utils.batchify`, concatenation and `torch.cat`.
- `TopKSelection`: the ranking behind `torch.topk`.
- `RetrieveColBERT`: the retriever, a class whose fields are updated in place.
- `ModelsColBERT`: the encoder class and its pad-token state.

The shape demands of torch are preconditions:
- `torch.stack` needs the documents of a batch to have equal token counts and every token row to have one width.
- `einsum` needs each query row to have the width of the document rows. In the retriever the one query tensor meets every batch, so all stored rows share that width.
- In `scores`, einsum needs a zipped pair of batches to hold equal numbers of queries and documents, or a single item on one side.
- The max over document tokens needs at least one token.

The failures the code reaches on well-shaped input are modelled as results, not preconditions:
- In the retriever, `torch.cat` of no batches happens when at least one query meets an empty store, and gives the `Failure` `EmptyStore`. `torch.topk` with a negative k gives the `Failure` `InvalidK`. Scoring runs before ranking, so an empty store is reported first.
- In the encoder's `scores`, `torch.cat` of no batches happens when the queries or the documents are empty. `Encoder.Scores` returns `None` then, through `Batching.Cat`.

## Model

| member | source | states |
|---|---|---|
| LateInteraction.Dot | neural_cherche/retrieve/colbert.py:175-179 | the contraction over the embedding axis h that einsum performs ("sh,bth->bst" here, "bsh,bth->bst" at sparsembed/models/colbert.py:268-270): the sum of products of matching entries; DotAppend states that it is a sum over h |
| LateInteraction.DotAppend | neural_cherche/retrieve/colbert.py:175-179 | the contraction splits over any cut of the embedding axis into the sum of the two parts' contractions |
| LateInteraction.MaxDot | neural_cherche/retrieve/colbert.py:182 | the max over document tokens is at least every token's dot product with the query token, and one token reaches it |
| LateInteraction.BestToken | neural_cherche/retrieve/colbert.py:182 | names a document token whose dot product with the query token is the maximum |
| LateInteraction.BestChoice | neural_cherche/retrieve/colbert.py:175-182 | picks one valid document token for every query token |
| LateInteraction.MaxSim | neural_cherche/retrieve/colbert.py:175-182 | the late-interaction score, a sum over query tokens of each token's best dot product; MaxSimIsUpperBound and MaxSimIsAttained characterise it as the score of the best alignment of query tokens to document tokens, and MaxSimSplitsOverQuery as a sum over query tokens |
| LateInteraction.MaxSimIsUpperBound | neural_cherche/retrieve/colbert.py:175-182 | no alignment of query tokens to document tokens scores more than MaxSim |
| LateInteraction.MaxSimIsAttained | neural_cherche/retrieve/colbert.py:175-182 | the alignment of each query token to its best document token scores exactly MaxSim, so MaxSim is the best alignment's score |
| LateInteraction.MaxSimSplitsOverQuery | neural_cherche/retrieve/colbert.py:182 | the score is a sum over query tokens: the score of a concatenated query is the sum of the parts' scores |
| LateInteraction.MaxSimGrowsWithDocument | neural_cherche/retrieve/colbert.py:182 | adding tokens to a document never lowers its score |
| LateInteraction.ScoresOf | neural_cherche/retrieve/colbert.py:175-183 | one score per document, in document order |
| LateInteraction.ScoresOfSlice | neural_cherche/retrieve/colbert.py:158-183 | scoring a slice of the documents gives the same slice of the scores, so a score does not depend on the batch it falls in |
| LateInteraction.SeqMaxOfDots | neural_cherche/retrieve/colbert.py:182 | max-pooling one query token's row of the similarity tensor over the document tokens gives MaxDot |
| LateInteraction.SeqSumOfMaxDots | neural_cherche/retrieve/colbert.py:182 | summing the pooled values over the query tokens gives MaxSim |
| LateInteraction.BatchScores | neural_cherche/retrieve/colbert.py:175-182 | the (b, s, t) similarity tensor of one query and a stacked batch, max-pooled over t and summed over s, has one entry per document, in batch order, and entry b is that document's MaxSim against the query |
| LateInteraction.BatchScoresAreScoresOf | neural_cherche/retrieve/colbert.py:175-183 | scoring a stacked batch gives the same vector as scoring its documents one by one |
| LateInteraction.BatchPairs | sparsembed/models/colbert.py:268-270 | the pairs einsum forms in a batch: as many as the broadcast batch size, each naming a query and a document of the batch |
| LateInteraction.PairListScoresAppend | sparsembed/models/colbert.py:272-276 | the scores of two runs of pairs, one after the other, are the scores of the runs joined |
| LateInteraction.PairScores | sparsembed/models/colbert.py:268-272 | one score per pair of a batch, as many as the broadcast batch size |
| LateInteraction.PairScoresBroadcast | sparsembed/models/colbert.py:268-272 | with equal batch sizes score b is query b against document b; a single query meets every document; every query meets a single document; never the cross product |
| LateInteraction.PairScoresAt | sparsembed/models/colbert.py:268-272 | score b pairs query b (or the single query) with document b (or the single document) |
| LateInteraction.PairScoresOfSlices | sparsembed/models/colbert.py:242-272 | a batch cut out of both inputs at one start scores the pairs BatchPairs names in the inputs |
| Batching.BatchStartIsProduct | neural_cherche/retrieve/colbert.py:158-162 | batch j starts at j times batch_size |
| Batching.BatchCountStart | neural_cherche/retrieve/colbert.py:158-162 | batch j exists exactly when j times batch_size is before the end of the input |
| Batching.Batchify | neural_cherche/retrieve/colbert.py:158-162 | every batch is non-empty and holds at most batch_size items |
| Batching.FlattenBatchify | neural_cherche/retrieve/colbert.py:158-162 | concatenating the batches gives back the input, in order |
| Batching.BatchifyCount | neural_cherche/retrieve/colbert.py:158-162 | the number of batches depends only on the input's length, and the batches cover every item |
| Batching.BatchifyAt | neural_cherche/retrieve/colbert.py:158-162 | batch j is the slice of at most batch_size items starting at j times batch_size |
| Batching.ConcatStep | neural_cherche/retrieve/colbert.py:181-185 | appending batch j's scores extends the concatenation by the scores of batch j's slice |
| Batching.Cat | neural_cherche/retrieve/colbert.py:185 | torch.cat fails exactly when there is nothing to concatenate; otherwise it is the concatenation, which FlattenBatchify and ConcatStep relate to the batches |
| TopKSelection.Ranking | neural_cherche/retrieve/colbert.py:206-210 | orders every index 0..n-1 exactly once, higher scores first |
| TopKSelection.TopK | neural_cherche/retrieve/colbert.py:206-210 | selects min(k, n) indices, all within range |
| TopKSelection.TopKCorrect | neural_cherche/retrieve/colbert.py:206-210 | the selected indices are distinct and in non-increasing score order, no unselected index scores strictly higher, and k at least n selects all |
| TopKSelection.TopKIsStable | neural_cherche/retrieve/colbert.py:206-210 | in this model, equal scores come out in store order (a tie-break of the model's own) |
| RetrieveColBERT.Clamp | neural_cherche/retrieve/colbert.py:208 | k is clamped to the corpus size: None takes all n, and a given k takes the smaller of k and n |
| RetrieveColBERT.RecordOf | neural_cherche/retrieve/colbert.py:111 | the record `{key: id}` that `add` appends; Retriever.Valid keeps record i equal to RecordOf of key i, and Add preserves that |
| RetrieveColBERT.Merged | neural_cherche/retrieve/colbert.py:214 | the ranked entry is the stored record plus `similarity`, which overrides a same-named field |
| RetrieveColBERT.RankedListCorrect | neural_cherche/retrieve/colbert.py:205-217 | a ranked list holds min(m, n) distinct documents in non-increasing similarity, each its record with its own score, and no document left out scores strictly higher |
| RetrieveColBERT.RankedList | neural_cherche/retrieve/colbert.py:212-216 | the ranked list has min(m, n) entries; RankedListCorrect states its order and contents |
| RetrieveColBERT.InsertKey | neural_cherche/retrieve/colbert.py:110-112 | adding one id stores it, keeping the embeddings already stored under it, or storing the given ones when it is new |
| RetrieveColBERT.InsertAll | neural_cherche/retrieve/colbert.py:109-112 | the store after adding the items in order, one InsertKey each; the InsertAll lemmas below state its keys, its key order and the embeddings it keeps |
| RetrieveColBERT.InsertAllKeepsSynced | neural_cherche/retrieve/colbert.py:109-112 | after any adds, the ordered keys are unique and are exactly the keys of the embeddings map |
| RetrieveColBERT.InsertAllFirstWriteWins | neural_cherche/retrieve/colbert.py:110-112 | an id already stored keeps its embeddings |
| RetrieveColBERT.InsertAllKeys | neural_cherche/retrieve/colbert.py:109-112 | after adds, an id is stored if and only if it was stored before or was added |
| RetrieveColBERT.InsertAllFirstOccurrence | neural_cherche/retrieve/colbert.py:109-112 | a new id is stored with the embeddings of its first occurrence in the added items |
| RetrieveColBERT.InsertAllAppendsNewKeys | neural_cherche/retrieve/colbert.py:109-113 | the key list grows by exactly the new ids, in iteration order, each once, and earlier keys are untouched |
| RetrieveColBERT.InsertAllOfStoredKeys | neural_cherche/retrieve/colbert.py:110 | adding only ids already stored changes nothing |
| RetrieveColBERT.InsertAllIdempotent | neural_cherche/retrieve/colbert.py:109-112 | adding the same items twice leaves the store as adding them once |
| RetrieveColBERT.Retriever.constructor | neural_cherche/retrieve/colbert.py:89-94 | a new retriever has its key field and an empty, consistent store |
| RetrieveColBERT.Retriever.Add | neural_cherche/retrieve/colbert.py:109-113 | the store after `add` is the abstract insertion of the items in order (see the lemmas above), the records stay in step with the keys, and the same retriever is returned |
| RetrieveColBERT.Retriever.BatchEmbeddings | neural_cherche/retrieve/colbert.py:164-171 | one stored embedding per record of the batch, looked up by the record's id, in batch order; BatchEmbeddingsOfSlice and BatchRecords relate it to the store |
| RetrieveColBERT.Retriever.BatchEmbeddingsOfSlice | neural_cherche/retrieve/colbert.py:163-173 | looking up the embeddings of a run of stored records gives the same run of the stored embeddings |
| RetrieveColBERT.Retriever.BatchRecords | neural_cherche/retrieve/colbert.py:158-173 | the records of batch j hold stored ids, and their embeddings are batch j of the stored embeddings |
| RetrieveColBERT.Retriever.StoreScores | neural_cherche/retrieve/colbert.py:185 | the vector `torch.cat` yields for one query: one score per stored document, in store order, entry i the query's MaxSim against the embeddings stored under key i |
| RetrieveColBERT.Retriever.BatchStep | neural_cherche/retrieve/colbert.py:158-183 | batch j, looked up and scored, gives slice j of the store's score vector |
| RetrieveColBERT.Retriever.ScoreQuery | neural_cherche/retrieve/colbert.py:150-184 | the per-batch vectors, one per batch, concatenate to the store-order vector of MaxSim scores, whatever the batch size |
| RetrieveColBERT.Retriever.Call | neural_cherche/retrieve/colbert.py:114-187 | with the source's defaults (batch size 32, k None meaning all), one ranked list per query in query order, each the ranking of that query's store-order scores; it fails with EmptyStore when a query meets an empty store and with InvalidK on a negative k, and only then |
| RetrieveColBERT.Retriever.Rank | neural_cherche/retrieve/colbert.py:189-219 | one ranked list per score vector, in order, with k clamped to the corpus size and all taken when k is None; a negative k fails |
| ModelsColBERT.Prefixed | sparsembed/models/colbert.py:194-195 | every text gets the mode's four-character marker in front, with the same count and order |
| ModelsColBERT.TokenizerKwargs | sparsembed/models/colbert.py:200-208 | the tokenizer arguments: four defaults overridden by the caller's kwargs; TokenizerKwargsMerge states the merge |
| ModelsColBERT.TokenizerKwargsMerge | sparsembed/models/colbert.py:200-208 | the four defaults are always present, and a caller's argument overrides the default of the same name |
| ModelsColBERT.Encoder.constructor | sparsembed/models/colbert.py:139-140 | the query pad token is the mask token, and the original pad token is the tokenizer's own |
| ModelsColBERT.Encoder.PadTokenFor | sparsembed/models/colbert.py:196-198 | the pad token of a mode: the mask token for queries, the original pad token for documents; Forward sets it and CallForMarksText shows the encoder receives it |
| ModelsColBERT.Encoder.CallFor | sparsembed/models/colbert.py:194-209 | what `_encode` receives for one text: the marked text, the mode's pad token and the merged tokenizer arguments; CallForMarksText states each part |
| ModelsColBERT.Encoder.QueryEmbedding | sparsembed/models/colbert.py:251-257 | a query's embedding as the query-mode call in `scores` produces it, with no extra arguments; ZippedScoresAt uses it for the query of each pair |
| ModelsColBERT.Encoder.DocumentEmbedding | sparsembed/models/colbert.py:259-266 | a document's embedding as the document-mode call in `scores` produces it, with `max_length` passed explicitly; ZippedScoresAt uses it for the document of each pair |
| ModelsColBERT.Encoder.CallForMarksText | sparsembed/models/colbert.py:194-208 | the encoder sees the text behind its mode's marker, with the mode's pad token and padding, padded to the mode's maximum length unless the caller passes max_length |
| ModelsColBERT.Encoder.Forward | sparsembed/models/colbert.py:173-209 | with the source's defaults (truncation on, no special tokens, query mode, no extra arguments), sets the pad token to the mode's, and embeds each text, in order, as the encoder receives it in that mode |
| ModelsColBERT.ZipPairs | sparsembed/models/colbert.py:242-276 | the (query, document) pairs the first j zipped batches score, batch after batch; the ZipPairs lemmas below state their range, order and the diagonal and broadcast cases |
| ModelsColBERT.ZipPairsPrefix | sparsembed/models/colbert.py:242-276 | the pairs of the first j zipped batches come first, unchanged, among those of later batches |
| ModelsColBERT.ZipPairsInRange | sparsembed/models/colbert.py:242-272 | every pair the zip scores names an existing query and an existing document |
| ModelsColBERT.ZipPairsDiagonal | sparsembed/models/colbert.py:242-272 | when every zipped pair of batches is of equal size, the zip pairs query i with document i, in order, up to the shorter input |
| ModelsColBERT.ZippedBatchesCover | sparsembed/models/colbert.py:242-250 | the zipped batches reach the end of the shorter input |
| ModelsColBERT.ZipPairsOfEqualLengths | sparsembed/models/colbert.py:242-272 | with as many queries as documents, the zip pairs query i with document i whatever the batch size |
| ModelsColBERT.OneQueryAgainstOneBatch | sparsembed/models/colbert.py:242-272 | one query with at most batch_size documents meets every document |
| ModelsColBERT.ThreeQueriesFourDocuments | sparsembed/models/colbert.py:242-272 | three queries and four documents in batches of two give the pairs (0,0), (1,1), (2,2), (2,3) |
| ModelsColBERT.ZipPairsStep | sparsembed/models/colbert.py:242-276 | the pairs and scores of zipped batch j follow those of the batches before it |
| ModelsColBERT.ZippedBatchStep | sparsembed/models/colbert.py:242-276 | scoring zipped batch j, cut out of the embedded inputs, extends the concatenated scores by that batch's pair scores |
| ModelsColBERT.Encoder.ZippedScores | sparsembed/models/colbert.py:242-276 | the score of every zipped pair, in order; ZippedScoresAt, ZippedScoresOfEqualLengths and ZippedScoresOfOneQuery state what each entry is |
| ModelsColBERT.Encoder.ZippedScoresAt | sparsembed/models/colbert.py:251-272 | score i is MaxSim of pair i's query (query mode) against its document (document mode, padded to the `max_length` of `scores`) |
| ModelsColBERT.Encoder.ZippedScoresOfEqualLengths | sparsembed/models/colbert.py:242-276 | with as many queries as documents, score i is query i against document i, whatever the batch size |
| ModelsColBERT.Encoder.ZippedScoresOfOneQuery | sparsembed/models/colbert.py:242-276 | one query with one batch of documents is scored against every document |
| ModelsColBERT.Encoder.PairBatchStep | sparsembed/models/colbert.py:242-274 | embedding and scoring zipped batch j extends the concatenated scores by the scores of that batch's pairs |
| ModelsColBERT.Encoder.Scores | sparsembed/models/colbert.py:212-276 | with the source's defaults (batch size 2, truncation on, no special tokens, and documents padded to 500 tokens unless the caller passes `max_length`), the result is the scores of the zip's pairs, in order, a single-item batch broadcasting (see the lemmas above); it fails (torch.cat of nothing) exactly when an input is empty; the pad token is left in document mode |
| ModelsColBERT.Encoder.SavePretrained | sparsembed/models/colbert.py:288 | restores the original pad token and returns the same encoder |

## Left out

- Floating point: embeddings and scores are integers. float32 rounding and NaN are not modelled, and neither is the L2 normalisation or linear projection in `forward` (sparsembed/models/colbert.py:209-210). Those happen inside `embed`.
- Encoder internals: `_encode`, loading the model, `linear.pt` and `metadata.json` (sparsembed/models/colbert.py:91-137), and the files `save_pretrained` writes. All are file I/O or library calls. The base class's `encode_documents`/`encode_queries` is not part of this model.
- `ModelsColBERT.Encoder.Forward`: `embed` is applied to one text at a time. This matches the source when padding is "max_length", because each text is then padded on its own to the same length. A caller who overrides `padding` gets per-batch padding, which the model does not capture.
- `ModelsColBERT.Encoder.Scores`: the extra `**kwargs` it forwards to both `forward` calls are not modelled. They never hold `max_length`, which Python binds to the method's own parameter (sparsembed/models/colbert.py:220). The model passes that parameter to the document-mode call.
- Tie order: `torch.topk` does not promise which of two equal scores comes first. The model breaks ties by store order. `TopKSelection.TopKIsStable` is a property of the model, not a promise of the source.
- `utils.batchify` is modelled as front-to-back chunks of at most batch_size. `tqdm`, devices and dtype conversions are left out.
- The retriever's `on`, `model` and `device` fields are not used by the modelled operations and are left out.
- `sparsembed/utils/evaluate.py`: downloads data and wraps an external metrics library. It is not part of this model.
- Shape errors are preconditions, not error results: unequal token counts or row widths within a batch (`torch.stack`), a query row width that differs from the document rows' (`einsum`), zipped batches of unequal sizes neither of which is 1 (`einsum` in `scores`), and a document with no tokens (max over an empty axis). Batch sizes are positive.
- A query with no tokens scores 0, as the code computes: the max over each document axis is empty-summed. This holds for a query tensor of shape (0, h) whose h is the documents' width. A plain empty list becomes a one-dimensional tensor, which einsum's "sh" rejects; the model, whose matrices carry no width when they have no rows, does not capture that failure.
- `RetrieveColBERT.Retriever.Call` and `ModelsColBERT.Encoder.Scores` require equal row widths on both sides. A width of 1 that torch's broadcasting might accept against another width is excluded.
- `ModelsColBERT.Encoder.Scores`: the language model returns one tensor per batch, so the embeddings of a batch share one token count and one width. The model does not require this of `embed`; it scores a ragged batch item by item.
- Document ids are modelled as opaque strings. The source accepts any hashable id, and its usage example uses integers (neural_cherche/retrieve/colbert.py:35-39). Only equality of ids matters to the modelled operations.
- Queries are given to `__call__` as the items of its dictionary, in iteration order. Their ids do not affect the result.
