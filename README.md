# llamaindex-pinecone, modelled in Dafny

This project models the core of `llamaindex-pinecone`. That library is a
TypeScript adapter which stores llamaindex nodes and their embeddings in a
Pinecone vector index and queries them back. The model covers the following:

- **Sparse values.** Two "naive" sparse-value builders turn an embedding into a
  histogram of its values: the current `NaiveSparseValuesBuilder` and the older
  `NaiveSparseValueBuilder`. The model includes the JavaScript object
  key-enumeration order that decides the order of the indices.
- **Vector building.** `PineconeVectorsBuilder` cuts a node's embedding into
  `dimension`-sized vectors named `<nodeId>-<k>`. Each vector carries the node's
  metadata and, optionally, sparse values. The last vector is zero-padded.
- **Metadata.** The metadata validator and the simple metadata builder.
- **Query building.** `PineconeQueryBuilder` validates query options, translates
  filters and assembles the query request.
- **Upserting.** `PineconeVectorsUpsert` sends the vectors either in one request
  or in batches, and reports which nodes were upserted and which failed.
- **The store.** `PineconeVectorStore` does the following:
  - it caches the index handle and the index statistics;
  - its `upsert` builds a record of every node's vectors;
  - its `queryAll` assembles the query options;
  - its `query` maps the matches to ids, similarities and nodes;
  - `add` returns the ids of the upserted nodes.
- **Whisper.** The two string computations of `WhisperReader`: the shell command
  it runs, and the cleanup of Whisper's output.

The model is organised as follows:

- Each source class that keeps state is a Dafny `class`. The loops are methods,
  each proved against a specification function.
- Every remote Pinecone call is a function parameter:
  - `upsert` is `RemoteUpsert`: the vectors of one request, giving the upserted
    count or the text of the error;
  - `describeIndexStats` is `DescribeIndexStats`;
  - `query` is `RemoteQuery`.
- A thrown exception is the `Failure` of a `Result`, carrying the message the
  JavaScript runtime or the code would produce.
- Embedding values are integers. These are token ids, which is what the sparse
  builders and their tests use.

Where the repository's documentation and its code differ, the model follows the
code:

- **Order of the indices.** `NaiveSparseValuesBuilder.build` enumerates its
  frequency object with `for…in`. That visits keys that are array indices in
  ascending numeric order, and other keys in creation order. So for token ids
  the indices come out ascending, not in the order the values first occur. The
  tests show the same.
- **Shape of the upsert result.** The record returned by `singleUpsert` and
  `batchUpsert` has the shape the code builds, with `upsertedVectorByNode`.
  It does not follow the declared `PineconeUpsertResults` type.

## Model

| member | source | states |
|---|---|---|
| SparseValues.BuildEmbeddingFrequencies | src/vectors/sparse_values/NaiveSparseValuesBuilder.ts:60-70 | The frequency table maps each distinct value to its number of occurrences. Its keys are created in the order the values first occur. |
| JsSemantics.PropertyOrderFacts | src/vectors/sparse_values/NaiveSparseValuesBuilder.ts:45-48 | `for…in` visits each key of the frequency object exactly once. When every key is an array index, the keys come out strictly ascending. |
| NaiveSparseValuesBuilder.Build | src/vectors/sparse_values/NaiveSparseValuesBuilder.ts:41-50 | The `for…in` loop returns the histogram: the table's keys in enumeration order as `indices`, and the count of each as `values`. |
| NaiveSparseValuesBuilder.HistogramFacts | src/vectors/sparse_values/NaiveSparseValuesBuilder.ts:41-69 | `indices` and `values` have equal length. `indices` holds each distinct input value exactly once. `values[i]` counts `indices[i]`, so every count is at least 1 and the counts add up to the input length. For token ids the indices ascend. An empty input gives two empty arrays. |
| NaiveSparseValuesBuilder.HistogramExample | src/vectors/sparse_values/NaiveSparseValuesBuilder.ts:33-39 | The documented example `[1,2,3,2,3,1,5,3,1]` gives indices `[1,2,3,5]` and values `[3,2,3,1]`. |
| NaiveSparseValueBuilder.Build | src/embeddings/sparse_values/builders/NaiveSparseValueBuilder.ts:44-55 | The older builder returns the counts as `indices` and the distinct values as `values`. |
| NaiveSparseValueBuilder.SwappedHistogramFacts | src/embeddings/sparse_values/builders/NaiveSparseValueBuilder.ts:50-53 | The output is the newer histogram with its two arrays exchanged. `values` holds each distinct value once, and `indices[i]` counts `values[i]`. |
| NaiveSparseValueBuilder.SwappedIndicesRepeat | src/embeddings/sparse_values/builders/NaiveSparseValueBuilder.ts:36-53 | On the documented example the older builder's `indices` are `[3,2,3,1]`, which repeat. The newer builder's are distinct. |
| MetadataUtils.ValueMessage | src/vectors/metadata_builders/utils.ts:7-14 | The two messages about object values hold the offending key right after their fixed prefixes, at offset 19 and offset 29. |
| MetadataUtils.ValidateMetadata | src/vectors/metadata_builders/utils.ts:1-23 | Validation passes exactly when: the key is a string; the value is not a plain object or null; and no member of an array value is one. Otherwise the first failing check in the source's order gives the error. |
| SimpleMetadataBuilder.BuildMetadata | src/vectors/metadata_builders/SimpleMetadataBuilder.ts:6-11 | Every metadata entry is kept, and `nodeId` is added. `nodeId` is the node's id unless the metadata has its own `nodeId`, which the spread writes over it. |
| VectorsBuilder.VectorId | src/vectors/PineconeVectorsBuilder.ts:47 | A vector id starts with the node id followed by `-`. |
| VectorsBuilder.VectorIdsDistinct | src/vectors/PineconeVectorsBuilder.ts:47 | Different sub-ids of one node give different vector ids. |
| VectorsBuilder.NodeMetadata | src/vectors/PineconeVectorsBuilder.ts:78-83 | Every node metadata entry is kept, and `id` is added. `id` is the node id unless the metadata has its own `id`. |
| VectorsBuilder.PadLastAt | src/vectors/PineconeVectorsBuilder.ts:70-76 | Normalising keeps the length. It changes only the last vector, and only that vector's values, which are zero-padded up to the dimension. |
| SeqUtils.ChunksCount | src/vectors/PineconeVectorsBuilder.ts:63-67 | An embedding of length L gives ceil(L / D) chunks. None of them is empty, and all but the last have length D. |
| SeqUtils.FlattenChunks | src/vectors/PineconeVectorsBuilder.ts:63-67 | Concatenating the chunks gives back the embedding. |
| VectorsBuilder.VectorsCount | src/vectors/PineconeVectorsBuilder.ts:35-76 | `buildVectors` fails (a `TypeError` in `normalizedVectors`) exactly when the embedding is empty. Otherwise it returns ceil(L / D) vectors. |
| VectorsBuilder.VectorAt | src/vectors/PineconeVectorsBuilder.ts:35-55 | Vector k is named `<nodeId>-<k>`, carries the node's metadata and has exactly `dimension` values. |
| VectorsBuilder.VectorIdsUnique | src/vectors/PineconeVectorsBuilder.ts:36-40 | All vector ids of one call are distinct. |
| VectorsBuilder.VectorValues | src/vectors/PineconeVectorsBuilder.ts:63-76 | Vector k holds the embedding's values from position k·D. The last vector's values are followed by zeros up to D. |
| VectorsBuilder.VectorSparseValues | src/vectors/PineconeVectorsBuilder.ts:51-60 | With `includeSparseValues`, each vector's sparse values are the configured builder's result on its own unpadded chunk. Without it, no vector has any. |
| VectorsBuilder.NormalizeEmbedding | src/vectors/PineconeVectorsBuilder.ts:27-33 | The copy has the same values in the same order. |
| VectorsBuilder.PineconeVectorsBuilder.constructor | src/vectors/PineconeVectorsBuilder.ts:18-24 | Sets the defaults: sparse values off unless the option is `true`, and the histogram builder unless another builder is given. |
| VectorsBuilder.PineconeVectorsBuilder.BuildSparseValues | src/vectors/PineconeVectorsBuilder.ts:57-60 | Runs the configured builder on the chunk. |
| VectorsBuilder.PineconeVectorsBuilder.BuildVector | src/vectors/PineconeVectorsBuilder.ts:45-55 | Builds one chunk's vector: its id, its values, the node metadata and the optional sparse values. |
| VectorsBuilder.PineconeVectorsBuilder.EmbeddingChunks | src/vectors/PineconeVectorsBuilder.ts:63-67 | The stepping loop yields exactly the D-sized chunks of the embedding. |
| VectorsBuilder.PineconeVectorsBuilder.NormalizedVectors | src/vectors/PineconeVectorsBuilder.ts:70-76 | Works in place on the array. An empty array gives the `TypeError`. Otherwise the array becomes the list with its last vector padded. |
| VectorsBuilder.PineconeVectorsBuilder.BuildVectors | src/vectors/PineconeVectorsBuilder.ts:35-43 | Returns the vectors specified by `Vectors`, whose properties are the lemmas above. |
| QueryBuilder.BuildPineconeFilters | src/pinecone_api/PineconeQueryBuilder.ts:144-162 | The filter keys are exactly the filters' keys. For each key, the last filter on that key gives `{"$eq": value}`. |
| QueryBuilder.NewPineconeQueryBuilder | src/pinecone_api/PineconeQueryBuilder.ts:67-92 | Construction fails exactly when there is not exactly one of a truthy `id` and a `vector`, with the source's two messages. The flags default to true and change only when the option is defined. The filters are translated: their keys are the filters' keys, and each key maps to `{"$eq": value}` of the last filter with that key. Every other field is copied. |
| QueryBuilder.AddOptionalQueryRequestValues | src/pinecone_api/PineconeQueryBuilder.ts:118-135 | Copies the four whitelisted properties onto the request, each exactly when it is truthy. |
| QueryBuilder.WhitelistFold | src/pinecone_api/PineconeQueryBuilder.ts:122-134 | The `reduce` over the whitelist equals setting each truthy whitelisted property. |
| QueryBuilder.QueryRequestIgnoresAlpha | src/pinecone_api/PineconeQueryBuilder.ts:94-142 | The request carries `topK`, both flags and the truthy whitelisted properties. Alpha never changes the request, because the dense scaling maps an absent request vector and the sparse scaling is overwritten. |
| QueryBuilder.ToQueryRequest | src/pinecone_api/PineconeQueryBuilder.ts:94-106 | The request is exactly the one `QueryRequestIgnoresAlpha` describes. |
| VectorsUpsert.BatchSizeOf | src/pinecone_api/PineconeVectorsUpsert.ts:20-26 | A missing or zero batch size becomes 100. Any other batch size is kept. |
| VectorsUpsert.PineconeVectorsUpsert.constructor | src/pinecone_api/PineconeVectorsUpsert.ts:25-28 | Stores the index and the batch size with its default. |
| VectorsUpsert.PineconeVectorsUpsert.Execute | src/pinecone_api/PineconeVectorsUpsert.ts:30-37 | A record whose total fits in one batch gives the single upsert's result. A larger record gives the batched result of `BatchResultsFor`. That result is aggregated over a batching of the record with the call's batch size. When every entry of the record holds vectors and no id repeats, which `UpsertRecordTidy` shows of the store's records, a node is reported upserted exactly when a request holding its vectors succeeds, and failed exactly when one fails. |
| VectorsUpsert.SingleUpsert | src/pinecone_api/PineconeVectorsUpsert.ts:41-67 | Sends one request with all vectors in node order. On success it reports every node, every vector and no failures, whatever count is returned. On failure it is the prefixed error. |
| VectorsUpsert.SpillVectors | src/pinecone_api/PineconeVectorsUpsert.ts:98-111 | The overflow of one node goes into full single-node batches, in order. No vector is lost. |
| VectorsUpsert.AddNodeVectors | src/pinecone_api/PineconeVectorsUpsert.ts:79-113 | One step of the reduce keeps the invariant: closed batches are full and the open batch fits. The vectors, tagged by node, are the input's so far. A new node with vectors keeps every batch free of empty entries and repeated ids. |
| VectorsUpsert.AddOverflowingNode | src/pinecone_api/PineconeVectorsUpsert.ts:89-111 | A node that does not fit fills the open batch with its first vectors and spills the rest into new batches. The invariant and the tagged vectors are kept as in `AddNodeVectors`, and the open batch afterwards holds only this node. |
| VectorsUpsert.FillAndClose | src/pinecone_api/PineconeVectorsUpsert.ts:90-97 | Filling the open batch with the first vectors of a node that does not fit, then closing it, leaves every closed batch full. The closed batches plus the rest of the node's vectors are, tagged by node, the batches before plus the whole node. |
| VectorsUpsert.BuildVectorBatches | src/pinecone_api/PineconeVectorsUpsert.ts:70-116 | Corrected batching. Each vector lands in exactly one batch, in order and with its node. No batch exceeds the batch size, all but the last are full, and every node appears. When every input entry holds vectors and no id repeats, no batch has an empty entry or lists an id twice. |
| VectorsUpsert.SpillAsWritten | src/pinecone_api/PineconeVectorsUpsert.ts:100-111 | The inner loop as written. Only the counter grows, since the `concat` result is discarded. It keeps the object table well formed. |
| VectorsUpsert.AddNodeAsWritten | src/pinecone_api/PineconeVectorsUpsert.ts:84-113 | The reduce callback as written, with its aliasing. It keeps the object table well formed. |
| VectorsUpsert.ReduceAsWritten | src/pinecone_api/PineconeVectorsUpsert.ts:78-114 | The reduce as written keeps the object table well formed. |
| VectorsUpsert.BuildVectorBatchesAsWrittenLosesVectors | src/pinecone_api/PineconeVectorsUpsert.ts:84-115 | With batch size 1, the code as written loses every vector in two cases. One node with two vectors gives no batch. Two one-vector nodes give a single batch listing the second node with no vectors. |
| VectorsUpsert.AddSucceededBatch | src/pinecone_api/PineconeVectorsUpsert.ts:142-149 | Each node of a successful batch adds 1 to the upserted count, its id and its vector count. `upsertedVectorByNode` keeps one empty entry per distinct id. The failure fields do not change. |
| VectorsUpsert.AddFailedBatch | src/pinecone_api/PineconeVectorsUpsert.ts:151-159 | Each node of a failed batch adds 1 to the failed count, its id and the batch's error. The upsert fields do not change. |
| VectorsUpsert.AggregateBatch | src/pinecone_api/PineconeVectorsUpsert.ts:142-159 | In a successful batch, each node adds 1 to the upserted count, its id and its vector count. In a failed batch, each node adds 1 to the failed count, its id and the error. `upsertedVectorByNode` keeps one empty entry per id. |
| VectorsUpsert.AggregateBatchUpserts | src/pinecone_api/PineconeVectorsUpsert.ts:139-161 | Folding over the batch outcomes gives the succeeded and failed ids, the errors and the vector count. Each count equals the length of its id list. |
| VectorsUpsert.AccountingIds | src/pinecone_api/PineconeVectorsUpsert.ts:142-159 | The succeeded ids and the failed ids together are exactly the ids of all batches. |
| VectorsUpsert.AccountingCounts | src/pinecone_api/PineconeVectorsUpsert.ts:153-158 | One error is recorded per failed node. The upserted vector count never exceeds the batches' total. |
| VectorsUpsert.AccountingAllSucceeded | src/pinecone_api/PineconeVectorsUpsert.ts:142-149 | When every batch request succeeds, every vector is counted and no node or error is recorded as failed. |
| VectorsUpsert.AccountingFacts | src/pinecone_api/PineconeVectorsUpsert.ts:142-159 | Every node of every batch is upserted or failed, with one error per failed node. The upserted vectors never exceed the batches' total. If every request succeeds, all are counted and nothing fails. |
| VectorsUpsert.AccountingAllFailed | src/pinecone_api/PineconeVectorsUpsert.ts:151-159 | When every batch request fails, no node or vector is counted as upserted and every node of the batches is recorded as failed. |
| VectorsUpsert.BatchUpsert | src/pinecone_api/PineconeVectorsUpsert.ts:124-161 | Batched upsert. The record is aggregated over batches that have the guarantees of `BuildVectorBatches`: the upserted ids, failed ids, errors and vector count are `SucceededIds`, `FailedIds`, `FailedErrors` and `SucceededVectorCount` of those batches. So a node's outcome is that of its own batch's request: for an input whose entries hold vectors and whose ids are distinct, a node is upserted exactly when a request holding its vectors succeeds. The counts equal the list lengths. Every input node is reported upserted or failed. At most the input's vectors are counted. All of them are counted when the index accepts every request, and none when it rejects every request. |
| VectorsUpsert.SucceededIdsSent | src/pinecone_api/PineconeVectorsUpsert.ts:141-150 | For batches without empty entries or repeated ids, an id is among the succeeded ids exactly when a batch listing it with vectors had its request accepted. |
| VectorsUpsert.FailedIdsSent | src/pinecone_api/PineconeVectorsUpsert.ts:151-159 | For such batches, an id is among the failed ids exactly when a batch listing it with vectors had its request rejected. |
| VectorsUpsert.AggregatedBatchResults | src/pinecone_api/PineconeVectorsUpsert.ts:124-161 | The fold over the batches of `BuildVectorBatches` meets every clause of `BatchResultsFor`. |
| VectorsUpsert.UpsertedNodeWasAccepted | src/pinecone_api/PineconeVectorsUpsert.ts:124-161 | In a batched result for an input without empty entries or repeated ids, an upserted node has one of its own vectors in a request the index accepted, and a failed node has one in a request it rejected. |
| VectorsUpsert.RejectedNodeNotUpserted | src/pinecone_api/PineconeVectorsUpsert.ts:151-159 | With nodes `a` and `b` of one vector each, batch size 1 and an index that rejects only requests holding `a`'s vector, `a` is not reported as upserted, whatever happens to `b`. |
| VectorStore.NoEmbeddingMessage | src/PineconeVectorStore.ts:270-272 | The error names the node without an embedding. |
| VectorStore.Lookup | src/PineconeVectorStore.ts:292 | Reading `vectorsByNode[nodeId]` finds an entry exactly when the id is a key. |
| VectorStore.SetPropertyKeys | src/PineconeVectorStore.ts:292 | Assigning `vectorsByNode[nodeId]` adds the id to the keys. A new id goes at the end. |
| VectorStore.SetPropertyLookup | src/PineconeVectorStore.ts:292 | After the assignment the id reads back the new vectors. Every other id reads back what it held before. |
| VectorStore.SetPropertyDistinct | src/PineconeVectorStore.ts:292 | The map never holds two entries for one id. |
| VectorStore.NodeBuilderBuildsLike | src/PineconeVectorStore.ts:268-290 | Building one node's vectors fails exactly when its embedding is missing or empty, with the matching message. Otherwise it gives ceil(L / D) vectors. |
| VectorStore.UpsertRecordSucceeds | src/PineconeVectorStore.ts:267-293 | The record builds exactly when every node has a non-empty embedding. |
| VectorStore.UpsertRecordFailure | src/PineconeVectorStore.ts:267-272 | The error is the one of the first node that cannot be built. |
| VectorStore.UpsertRecordPrefixFails | src/PineconeVectorStore.ts:267-272 | Once a node fails, the later nodes change nothing. |
| VectorStore.UpsertRecordShape | src/PineconeVectorStore.ts:261-292 | The record's keys are the node ids, each once. `totalVectorCount` is the sum of every node's vector count, including nodes whose entry a later node with the same id overwrote. |
| VectorStore.UpsertRecordLookup | src/PineconeVectorStore.ts:290-292 | A node id maps to the vectors of the last node with that id. |
| VectorStore.UpsertRecordHoldsVectors | src/PineconeVectorStore.ts:267-292 | Every entry of a record that builds holds at least one vector. |
| VectorStore.UpsertRecordTidy | src/PineconeVectorStore.ts:261-292 | A record that builds has no empty entry and no repeated id, so the batched upsert's per-node outcome applies to it. |
| VectorStore.UpsertRecordDistinct | src/PineconeVectorStore.ts:290-292 | With distinct node ids, the keys are the node ids in order and the total equals the vectors in the map. |
| VectorStore.QueryAllRequestFacts | src/PineconeVectorStore.ts:197-222 | The request carries the query's top-k and embedding. A flag is false only when it was passed as false. A sparse vector is attached exactly in sparse or hybrid mode. The call fails when sparse mode has no embedding, or when there is not exactly one of a vector id and an embedding. Alpha and the filters never change the request. |
| VectorStore.QueryAsksForMetadataOnly | src/PineconeVectorStore.ts:153 | `query` always requests metadata and never values. |
| VectorStore.AsReals | src/PineconeVectorStore.ts:200 | The embedding is passed on value by value. |
| VectorStore.QueryResultOutcome | src/PineconeVectorStore.ts:161-171 | Mapping succeeds exactly when every match has metadata and, given any match, keyword arguments exist. Otherwise it fails with the missing-metadata or the missing-arguments message. |
| VectorStore.QueryResultEntries | src/PineconeVectorStore.ts:161-171 | On success `ids` and `similarities` follow the matches in order: `ids[i]` is the i-th match's `nodeId` and `similarities[i]` its score. |
| VectorStore.QueryResultNodes | src/PineconeVectorStore.ts:168-171 | On success `nodes` has one hydrated node per match when a hydrator is given, and is empty without one. |
| VectorStore.QueryResultFacts | src/PineconeVectorStore.ts:161-171 | Mapping succeeds exactly when every match has metadata and, given any match, keyword arguments exist. Then `ids` and `similarities` follow the matches in order: `ids[i]` is the i-th match's `nodeId` and `similarities[i]` its score. `nodes` has one hydrated node per match with a hydrator, and is empty without one. |
| VectorStore.QueryResultPrefixFails | src/PineconeVectorStore.ts:161-172 | Once a match fails, the later matches change nothing. |
| VectorStore.MapMatches | src/PineconeVectorStore.ts:161-174 | The `forEach` loop computes what `QueryResultFacts` describes. |
| VectorStore.PineconeVectorStore.constructor | src/PineconeVectorStore.ts:49-54 | The sparse builder defaults to the histogram builder, and nothing is cached. |
| VectorStore.PineconeVectorStore.GetIndex | src/PineconeVectorStore.ts:95-102 | Returns the cached handle unless there is none or a refresh is forced. In that case a handle for the index is cached. The statistics are left alone. |
| VectorStore.PineconeVectorStore.GetIndexStats | src/PineconeVectorStore.ts:104-112 | Returns the cached statistics, with no request, unless there are none or a refresh is forced. In that case it makes exactly one request and caches the result. |
| VectorStore.PineconeVectorStore.BuildVectorsByNode | src/PineconeVectorStore.ts:261-293 | The loop computes the record that the `UpsertRecord` lemmas describe. It uses the index dimension, the store's sparse builder and the call's sparse option. |
| VectorStore.PineconeVectorStore.Upsert | src/PineconeVectorStore.ts:257-297 | Uses the cached or freshly fetched statistics. A failure to build the record is returned before anything is sent. Otherwise the record is executed with the call's batch size against the store's index. |
| VectorStore.PineconeVectorStore.Add | src/PineconeVectorStore.ts:124-127 | Returns exactly the `upsertedNodeIds` of the upsert, with default options when none are given. Afterwards the index handle is cached, and the statistics are the cached ones or those of one fresh request, whose dimension the upsert used. |
| VectorStore.PineconeVectorStore.QueryAll | src/PineconeVectorStore.ts:197-224 | Returns the index's matches for the request described by `QueryAllRequestFacts`, or `[]` when Pinecone sends none. A validation failure is returned before the index is fetched. |
| VectorStore.PineconeVectorStore.Query | src/PineconeVectorStore.ts:149-175 | Returns the mapping of `QueryResultFacts`, applied to the matches of the metadata-only request. The statistics are untouched. The index handle is cached once the request is built, and unchanged when building it fails. |
| WhisperReader.WhisperCommandShape | src/WhisperReader.ts:40-49 | The command is eight parts joined by single spaces. It starts with `whisper <filePath>` and ends with the device option. |
| WhisperReader.CleanWhisperOutput | src/WhisperReader.ts:54-63 | The result is a suffix of the output. With the marker `[00:00.000` present, it starts at the marker's first occurrence. Without it, it is the last character, or nothing for an empty output. |
| WhisperReader.CleanWhisperOutputIdempotent | src/WhisperReader.ts:60-62 | Cleaning twice gives the same result as cleaning once. |

## Left out

- Remote calls are parameters, not implementations. This covers Pinecone's
  `upsert`, `query`, `fetch`, `_delete`, `describeIndexStats`, `Index` and the
  client's `init`. Network errors appear only as the error text the upsert
  function returns.
- `getPineconeClient`, `client`, `fetch`, `deleteVectors`, `deleteAll`, `delete`
  and `persist` of `PineconeVectorStore` are not modelled. They only forward to
  the remote client.
- The `WhisperReader` constructor and `loadData` are not modelled: they run
  `which` and `whisper` as child processes and read the environment.
- `console.log`, `console.debug` and `console.error` output is not modelled.
- VectorsUpsert.BatchUpsert models a sequential fold over the batch outcomes,
  not the concurrency of the code:
  - the requests of `buildBatchedUpsertPromises` run concurrently;
  - `Promise.all` rejects with the first failure only;
  - `batchUpsert` returns before the `then`/`catch` handlers have run, because
    `Promise.all` is not awaited.
- The record returned by `batchUpsert` is later mutated by those handlers. This
  aliasing is not modelled.
- VectorsUpsert.AddFailedBatch and VectorsUpsert.AggregateBatch model the
  failure accounting that the comment at PineconeVectorsUpsert.ts:152 describes,
  not the `catch` handler as written. As written, `Promise.all` rejects with a single
  `[message, batch]` pair (PineconeVectorsUpsert.ts:179), and the loop at :153
  destructures that pair's elements:
  - the message string gives `error = 'E'` and `vectorsByNode = 'r'`, so node id
    `"0"` is recorded as failed with the error `"E"`;
  - the batch object is not iterable, so destructuring it throws a `TypeError`
    inside the handler, and the rejection goes unhandled;
  - after any failure the `then` handler (:141-150) never runs, so the batches
    that did succeed are never counted.
- Numbers are integers. Floating-point embeddings, `parseInt`/`parseFloat` on
  non-integer keys, the BigInt-to-Number coercion and the alpha scaling of real
  weights are not modelled bit for bit. Alpha is a real number.
- Enumeration order is modelled for integer keys only. Node ids that look like
  array indices would be enumerated first by `Object.keys`; node maps are
  modelled as lists in insertion order.
- WhisperReader.WhisperCommandShape takes the temperature as a natural number.
  It does not cover fractional temperatures, the string values of the Whisper
  enums, or shell quoting of the file path.
- `nodeHydrator` is modelled as an already-constructed function from metadata
  to a node. `nodeHydratorOptions` and the hydrator classes are not part of
  this model.
- The split and extract options (`splitEmbeddingsByDimension`,
  `extractPineconeMetadata`) are not modelled. The vectors builder in this
  repository does not read them.
- A `kwargs` key that is passed with the value `undefined` counts as passed in
  the source. The model treats it as absent.
- A dimension of 0 is not modelled: the builder's functions require
  `dimension >= 1`, and the index statistics carry a `Dimension`, which is at
  least 1. With dimension 0 the chunking loop of `PineconeVectorsBuilder`
  (PineconeVectorsBuilder.ts:64, `chunkIndex += this.dimension`) never ends on a
  non-empty embedding. The model therefore also assumes that the remote
  `describeIndexStats` reports a positive dimension.
- A negative or fractional batch size is not modelled. Batch sizes are natural
  numbers, and 0 falls back to the default as in the source.
- VectorsUpsert.BatchUpsert: the batches its record is aggregated over are
  named only by the guarantees of `BuildVectorBatches` (order, sizes, every node
  present), not by the exact grouping of vectors into node entries.
- A sparse builder other than the library's two histogram builders (a BM25 or
  SPLADE encoder, say) is modelled by what its `build()` returns for an
  embedding, as a pure function. Its constructor's side effects and any state
  it keeps are not modelled.
- The default sparse builder of `PineconeVectorsBuilder` is imported from its
  `sparse_values` directory under a name that directory's files do not define.
  The model takes that directory's histogram builder.

## Findings

| source | as written | input that shows it | evidently intended | confidence | as-written member | corrected member |
|---|---|---|---|---|---|---|
| src/pinecone_api/PineconeVectorsUpsert.ts:84-115 | Five lines lose vectors. A node that fits pushes the current batch without adding the node (:85). The space remaining is computed as `current - batchSize`, which is never positive (:91). The batch filled at :92 is not pushed before :95 replaces `currentVectorBatch` with a new object, so it reaches the list only if an earlier fitting node already pushed that same object at :85. The result of `concat` is discarded (:109). The last open batch is never pushed. | batch size 1 with one node holding two vectors gives no batch; with nodes `a` and `b` holding one vector each it gives `[{b: []}]` | Every vector lands in exactly one batch of at most `batchSize` vectors, nodes are kept together when they fit, and the last batch is sent too. | high (not executed) | VectorsUpsert.BuildVectorBatchesAsWrittenLosesVectors | VectorsUpsert.BuildVectorBatches |
| src/embeddings/sparse_values/builders/NaiveSparseValueBuilder.ts:50-53 | The older builder pushes each count onto `indices` and each value onto `values`. | `[1,2,3,2,3,1,5,3,1]` gives indices `[3,2,3,1]`, which repeat, where the documentation promises `[1,2,3,5]` | The distinct values become `indices` and their counts become `values`, as the builder's doc comments (:19-22, :38-41) and the newer builder do. The builder's own test, src/tests/embeddings/sparse_values/builders/NaiveSparseValueBuilder.test.ts:10, expects the swapped output instead (under the misspelt key `indicies`), so the intent is disputed. | low (not executed) | NaiveSparseValueBuilder.SwappedIndicesRepeat | NaiveSparseValuesBuilder.Build |
