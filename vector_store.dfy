/** `PineconeVectorStore`: the llamaindex vector store backed by one Pinecone
    index. It caches the index handle and the index statistics, assembles the
    vectors of a list of nodes into one record for the upserter, and maps
    query matches back to node ids and similarities. Every remote call is a
    function parameter: `describeIndexStats` gives the statistics of an
    index, `upsertTo` the upsert endpoint of an index and `remoteQuery` the
    matches (if any) Pinecone returns for a request. */
module VectorStore {
  import opened Wrappers
  import opened JsSemantics
  import opened SeqUtils
  import opened SparseValues
  import opened Nodes
  import opened VectorsBuilder
  import opened VectorsUpsert
  import opened QueryBuilder

  /** The handle `client.Index(indexName)` returns. */
  datatype PineconeIndex = PineconeIndex(indexName: string)

  /** A Pinecone index always has a positive dimension. */
  type Dimension = d: nat | d >= 1 witness 1

  /** `PineconeIndexStats`: the per-namespace vector counts, if any, the
      dimension, the fullness and the total vector count. */
  datatype PineconeIndexStats = PineconeIndexStats(
    namespaces: Option<map<string, Option<nat>>>,
    dimension: Dimension,
    indexFullness: real,
    totalVectorCount: nat)

  type DescribeIndexStats = PineconeIndex -> PineconeIndexStats

  /** `PineconeVectorStoreOptions`, without the client (client set-up is I/O). */
  datatype PineconeVectorStoreOptions = PineconeVectorStoreOptions(
    indexName: string,
    namespace: Option<string>,
    sparseVectorBuilder: Option<SparseBuilderClass>)

  /** `DEFAULT_UPSERT_OPTIONS`: neither a batch size nor sparse values. */
  const DEFAULT_UPSERT_OPTIONS := PineconeUpsertOptions(None, None)

  // ---------------------------------------------------------------------
  // The record `upsert` builds from the nodes.
  // ---------------------------------------------------------------------

  function NoEmbeddingMessage(nodeId: string): (message: string)
    ensures |message| > 5 + |nodeId| && message[..5] == "Node " && message[5..5 + |nodeId|] == nodeId
  {
    "Node " + nodeId + " does not have an embedding."
  }

  /** The entry of `nodeId` in a vector map, if there is one. */
  function Lookup(entries: seq<NodeEntry>, nodeId: string): (r: Option<seq<Vector>>)
    ensures r.Some? <==> nodeId in IdSet(entries)
  {
    if entries == [] then None
    else if entries[0].nodeId == nodeId then Some(entries[0].vectors)
    else
      assert IdSet(entries) == {entries[0].nodeId} + IdSet(entries[1..]) by {
        assert entries == [entries[0]] + entries[1..];
        SnocOrCons(entries);
      }
      Lookup(entries[1..], nodeId)
  }

  lemma SnocOrCons(entries: seq<NodeEntry>)
    requires entries != []
    ensures IdSet(entries) == {entries[0].nodeId} + IdSet(entries[1..])
  {
    assert forall e :: e in entries <==> e == entries[0] || e in entries[1..];
  }

  /** `vectorsByNode[nodeId] = vectors` on a map that is not keyed by array
      indices: the entry of an existing key is replaced where it stands, a
      new key is appended. */
  lemma {:induction false} SetPropertyKeys(entries: seq<NodeEntry>, nodeId: string, vectors: seq<Vector>)
    ensures IdSet(SetProperty(entries, nodeId, vectors)) == IdSet(entries) + {nodeId}
    ensures nodeId !in IdSet(entries) ==> SetProperty(entries, nodeId, vectors) == entries + [NodeEntry(nodeId, vectors)]
    decreases |entries|
  {
    if entries == [] {
      SingleEntry(NodeEntry(nodeId, vectors));
    } else {
      var r := SetProperty(entries, nodeId, vectors);
      SnocOrCons(entries);
      SnocOrCons(r);
      if entries[0].nodeId == nodeId {
        assert r[1..] == entries[1..];
      } else {
        SetPropertyKeys(entries[1..], nodeId, vectors);
        assert r[1..] == SetProperty(entries[1..], nodeId, vectors);
        if nodeId !in IdSet(entries) {
          assert entries == [entries[0]] + entries[1..];
        }
      }
    }
  }

  /** After `vectorsByNode[nodeId] = vectors`, the key holds the new vectors
      and every other key keeps its own. */
  lemma {:induction false} SetPropertyLookup(entries: seq<NodeEntry>, nodeId: string, vectors: seq<Vector>, other: string)
    ensures Lookup(SetProperty(entries, nodeId, vectors), nodeId) == Some(vectors)
    ensures other != nodeId ==> Lookup(SetProperty(entries, nodeId, vectors), other) == Lookup(entries, other)
    decreases |entries|
  {
    if entries != [] && entries[0].nodeId != nodeId {
      SetPropertyLookup(entries[1..], nodeId, vectors, other);
      assert SetProperty(entries, nodeId, vectors)[1..] == SetProperty(entries[1..], nodeId, vectors);
    }
  }

  /** No two entries of a map have the same key. */
  predicate DistinctIds(entries: seq<NodeEntry>) {
    forall i, j :: 0 <= i < j < |entries| ==> entries[i].nodeId != entries[j].nodeId
  }

  lemma DistinctIdsIds(entries: seq<NodeEntry>)
    ensures DistinctIds(entries) <==> NoDuplicates(Ids(entries))
  {
  }

  /** Setting a key keeps the keys of a map distinct. */
  lemma {:induction false} SetPropertyDistinct(entries: seq<NodeEntry>, nodeId: string, vectors: seq<Vector>)
    requires DistinctIds(entries)
    ensures DistinctIds(SetProperty(entries, nodeId, vectors))
    decreases |entries|
  {
    if entries != [] {
      var r := SetProperty(entries, nodeId, vectors);
      var tail := entries[1..];
      if entries[0].nodeId == nodeId {
        assert forall i :: 1 <= i < |r| ==> r[i] == entries[i];
      } else {
        assert DistinctIds(tail) by {
          assert forall i :: 0 <= i < |tail| ==> tail[i] == entries[i + 1];
        }
        SetPropertyDistinct(tail, nodeId, vectors);
        var rest := SetProperty(tail, nodeId, vectors);
        assert IdSet(rest) == IdSet(tail) + {nodeId} by {
          SetPropertyKeys(tail, nodeId, vectors);
        }
        assert r == [entries[0]] + rest;
        assert entries[0].nodeId !in IdSet(tail) by {
          forall e | e in tail
            ensures e.nodeId != entries[0].nodeId
          {
            var k :| 0 <= k < |tail| && tail[k] == e;
            assert tail[k] == entries[k + 1];
          }
        }
        forall j | 0 < j < |r|
          ensures r[0].nodeId != r[j].nodeId
        {
          assert r[j] == rest[j - 1] && rest[j - 1] in rest;
          assert r[j].nodeId in IdSet(rest);
        }
      }
    }
  }

  /** The number of vectors `buildVectors` makes for each node, summed over
      the nodes (a node without an embedding counts 0). */
  function TotalChunks(nodes: seq<Node>, dimension: Dimension): nat {
    if nodes == [] then 0
    else
      var node := nodes[|nodes| - 1];
      TotalChunks(nodes[..|nodes| - 1], dimension) +
        (if node.embedding.Some? then CeilDiv(|node.embedding.value|, dimension) else 0)
  }

  /** A node whose embedding is missing (or empty, which the vector builder
      rejects). */
  predicate Unbuildable(node: Node) {
    node.embedding.None? || node.embedding.value == []
  }

  /** The error the loop stops with at a node that cannot be built. */
  function BuildError(node: Node): string {
    if node.embedding.None? then NoEmbeddingMessage(node.nodeId) else LAST_VECTOR_UNDEFINED
  }

  /** The body of the loop of `upsert` for one node, up to the vectors: the
      missing embedding check, then `buildVectors` with the call's sparse
      option, the index dimension and the store's sparse builder. */
  function BuildNodeVectors(node: Node, includeSparseValues: Option<bool>, dimension: Dimension,
                            builder: SparseBuilderClass): Result<seq<Vector>, string>
  {
    if node.embedding.None? then Failure(NoEmbeddingMessage(node.nodeId))
    else Vectors(node, node.embedding.value, includeSparseValues == Some(true), dimension, builder)
  }

  type NodeVectorsBuilder = Node -> Result<seq<Vector>, string>

  function NodeBuilder(includeSparseValues: Option<bool>, dimension: Dimension,
                       builder: SparseBuilderClass): NodeVectorsBuilder
  {
    node => BuildNodeVectors(node, includeSparseValues, dimension, builder)
  }

  /** What the loop needs to know of building one node: it fails exactly on
      a node that cannot be built, with that node's error, and otherwise
      makes ceil(L / D) vectors. */
  ghost predicate BuildsLike(build: NodeVectorsBuilder, dimension: Dimension) {
    forall node ::
      && (build(node).Failure? <==> Unbuildable(node))
      && (build(node).Failure? ==> build(node).error == BuildError(node))
      && (build(node).Success? ==> |build(node).value| == CeilDiv(|node.embedding.value|, dimension))
  }

  lemma NodeBuilderBuildsLike(includeSparseValues: Option<bool>, dimension: Dimension, builder: SparseBuilderClass)
    ensures BuildsLike(NodeBuilder(includeSparseValues, dimension, builder), dimension)
  {
    forall node
      ensures var r := BuildNodeVectors(node, includeSparseValues, dimension, builder);
        && (r.Failure? <==> Unbuildable(node))
        && (r.Failure? ==> r.error == BuildError(node))
        && (r.Success? ==> |r.value| == CeilDiv(|node.embedding.value|, dimension))
    {
      if node.embedding.Some? {
        VectorsCount(node, node.embedding.value, includeSparseValues == Some(true), dimension, builder);
      }
    }
  }

  /** The record the loop of `upsert` builds, node after node: the first
      node that cannot be built stops it with its error; every other node's
      vectors are added to the total and stored under its id. */
  function UpsertRecord(nodes: seq<Node>, build: NodeVectorsBuilder): Result<UpsertVectorsRecord, string> {
    if nodes == [] then Success(UpsertVectorsRecord(0, []))
    else
      match UpsertRecord(nodes[..|nodes| - 1], build)
      case Failure(e) => Failure(e)
      case Success(record) =>
        var node := nodes[|nodes| - 1];
        match build(node)
        case Failure(e) => Failure(e)
        case Success(vectors) =>
          Success(UpsertVectorsRecord(record.totalVectorCount + |vectors|,
                                      SetProperty(record.vectorsByNode, node.nodeId, vectors)))
  }

  function NodeIds(nodes: seq<Node>): (ids: seq<string>)
    ensures |ids| == |nodes| && forall i :: 0 <= i < |nodes| ==> ids[i] == nodes[i].nodeId
  {
    seq(|nodes|, i requires 0 <= i < |nodes| => nodes[i].nodeId)
  }

  /** No later node has the same id as node i. */
  predicate LastWithId(nodes: seq<Node>, i: nat)
    requires i < |nodes|
  {
    forall j :: i < j < |nodes| ==> nodes[j].nodeId != nodes[i].nodeId
  }

  lemma NodeIdsSnoc(nodes: seq<Node>)
    requires nodes != []
    ensures NodeIds(nodes) == NodeIds(nodes[..|nodes| - 1]) + [nodes[|nodes| - 1].nodeId]
  {
  }

  /** Every node has a non-empty embedding. */
  predicate AllBuildable(nodes: seq<Node>) {
    forall i :: 0 <= i < |nodes| ==> !Unbuildable(nodes[i])
  }

  /** The loop builds a record exactly when every node has a non-empty
      embedding. */
  lemma {:induction false} UpsertRecordSucceeds(nodes: seq<Node>, build: NodeVectorsBuilder, dimension: Dimension)
    requires BuildsLike(build, dimension)
    ensures UpsertRecord(nodes, build).Success? <==> AllBuildable(nodes)
    decreases |nodes|
  {
    if nodes != [] {
      var init := nodes[..|nodes| - 1];
      UpsertRecordSucceeds(init, build, dimension);
      assert AllBuildable(nodes) <==> AllBuildable(init) && !Unbuildable(nodes[|nodes| - 1]) by {
        assert forall i :: 0 <= i < |init| ==> init[i] == nodes[i];
      }
    }
  }

  /** The loop stops at the first node without an embedding (or with an
      empty one), with that node's error, before anything is sent. */
  lemma {:induction false} UpsertRecordFailure(nodes: seq<Node>, build: NodeVectorsBuilder, dimension: Dimension, i: nat)
    requires BuildsLike(build, dimension)
    requires i < |nodes| && Unbuildable(nodes[i]) && AllBuildable(nodes[..i])
    ensures UpsertRecord(nodes, build) == Failure(BuildError(nodes[i]))
    decreases |nodes|
  {
    var init := nodes[..|nodes| - 1];
    if i == |nodes| - 1 {
      assert init == nodes[..i];
      UpsertRecordSucceeds(init, build, dimension);
    } else {
      assert init[..i] == nodes[..i] && init[i] == nodes[i];
      UpsertRecordFailure(init, build, dimension, i);
    }
  }

  /** A built record has one entry per distinct node id, and its total counts
      the vectors of every node, even of one whose entry a later node with
      the same id replaced. */
  lemma {:induction false} UpsertRecordShape(nodes: seq<Node>, build: NodeVectorsBuilder, dimension: Dimension)
    requires BuildsLike(build, dimension)
    ensures var r := UpsertRecord(nodes, build);
      r.Success? ==>
        && IdSet(r.value.vectorsByNode) == Elements(NodeIds(nodes))
        && NoDuplicates(Ids(r.value.vectorsByNode))
        && r.value.totalVectorCount == TotalChunks(nodes, dimension)
    decreases |nodes|
  {
    var r := UpsertRecord(nodes, build);
    if nodes != [] && r.Success? {
      var init, node := nodes[..|nodes| - 1], nodes[|nodes| - 1];
      UpsertRecordShape(init, build, dimension);
      var rec := UpsertRecord(init, build).value;
      var vectors := build(node).value;
      SetPropertyKeys(rec.vectorsByNode, node.nodeId, vectors);
      DistinctIdsIds(rec.vectorsByNode);
      SetPropertyDistinct(rec.vectorsByNode, node.nodeId, vectors);
      DistinctIdsIds(r.value.vectorsByNode);
      NodeIdsSnoc(nodes);
      assert Elements(NodeIds(nodes)) == Elements(NodeIds(init)) + {node.nodeId};
    }
  }

  /** Setting a key to vectors keeps every entry of a map holding vectors. */
  lemma {:induction false} SetPropertyKeepsVectors(entries: seq<NodeEntry>, nodeId: string, vectors: seq<Vector>)
    requires vectors != [] && forall j :: 0 <= j < |entries| ==> entries[j].vectors != []
    ensures var r := SetProperty(entries, nodeId, vectors);
      forall j :: 0 <= j < |r| ==> r[j].vectors != []
    decreases |entries|
  {
    if entries != [] {
      var r := SetProperty(entries, nodeId, vectors);
      var tail := entries[1..];
      assert forall j :: 0 <= j < |tail| ==> tail[j] == entries[j + 1];
      if entries[0].nodeId == nodeId {
        assert forall j :: 1 <= j < |r| ==> r[j] == tail[j - 1];
      } else {
        SetPropertyKeepsVectors(tail, nodeId, vectors);
        assert forall j :: 1 <= j < |r| ==> r[j] == SetProperty(tail, nodeId, vectors)[j - 1];
      }
    }
  }

  /** A node the builder accepts gets at least one vector. */
  lemma BuiltVectorsNonEmpty(build: NodeVectorsBuilder, dimension: Dimension, node: Node)
    requires BuildsLike(build, dimension) && build(node).Success?
    ensures build(node).value != []
  {
    assert !Unbuildable(node);
    assert |build(node).value| == CeilDiv(|node.embedding.value|, dimension);
  }

  /** Every entry of a built record holds at least one vector. */
  lemma {:induction false} UpsertRecordHoldsVectors(nodes: seq<Node>, build: NodeVectorsBuilder, dimension: Dimension)
    requires BuildsLike(build, dimension)
    ensures var r := UpsertRecord(nodes, build);
      r.Success? ==> forall j :: 0 <= j < |r.value.vectorsByNode| ==> r.value.vectorsByNode[j].vectors != []
    decreases |nodes|
  {
    if nodes != [] && UpsertRecord(nodes, build).Success? {
      var init, node := nodes[..|nodes| - 1], nodes[|nodes| - 1];
      UpsertRecordSnoc(nodes, build);
      UpsertRecordHoldsVectors(init, build, dimension);
      BuiltVectorsNonEmpty(build, dimension, node);
      SetPropertyKeepsVectors(UpsertRecord(init, build).value.vectorsByNode, node.nodeId, build(node).value);
    }
  }

  /** A built record is tidy: every entry holds at least one vector and no
      id is listed twice, so the batched upsert reports each node by the
      requests that carried its vectors. */
  lemma UpsertRecordTidy(nodes: seq<Node>, build: NodeVectorsBuilder, dimension: Dimension)
    requires BuildsLike(build, dimension)
    ensures var r := UpsertRecord(nodes, build);
      r.Success? ==> Tidy(r.value.vectorsByNode)
  {
    UpsertRecordHoldsVectors(nodes, build, dimension);
    UpsertRecordShape(nodes, build, dimension);
  }

  /** A built record is the record of all nodes but the last, with the last
      node's vectors set under its id. */
  lemma UpsertRecordSnoc(nodes: seq<Node>, build: NodeVectorsBuilder)
    requires nodes != [] && UpsertRecord(nodes, build).Success?
    ensures var init, node := nodes[..|nodes| - 1], nodes[|nodes| - 1];
      && UpsertRecord(init, build).Success? && build(node).Success?
      && UpsertRecord(nodes, build).value ==
         UpsertVectorsRecord(UpsertRecord(init, build).value.totalVectorCount + |build(node).value|,
                             SetProperty(UpsertRecord(init, build).value.vectorsByNode, node.nodeId, build(node).value))
  {
  }

  /** Each node id's entry holds the vectors of the last node with that id. */
  lemma {:induction false} UpsertRecordLookup(nodes: seq<Node>, build: NodeVectorsBuilder, i: nat)
    requires UpsertRecord(nodes, build).Success?
    requires i < |nodes| && LastWithId(nodes, i)
    ensures build(nodes[i]).Success?
    ensures Lookup(UpsertRecord(nodes, build).value.vectorsByNode, nodes[i].nodeId) == Some(build(nodes[i]).value)
    decreases |nodes|
  {
    var init, node := nodes[..|nodes| - 1], nodes[|nodes| - 1];
    UpsertRecordSnoc(nodes, build);
    var before := UpsertRecord(init, build).value.vectorsByNode;
    SetPropertyLookup(before, node.nodeId, build(node).value, nodes[i].nodeId);
    if i < |init| {
      assert init[i] == nodes[i];
      assert LastWithId(init, i);
      assert nodes[i].nodeId != node.nodeId;
      UpsertRecordLookup(init, build, i);
    }
  }

  /** For nodes with distinct ids the map's entries follow the nodes and the
      total is the number of vectors in the map. */
  lemma {:induction false} UpsertRecordDistinct(nodes: seq<Node>, build: NodeVectorsBuilder)
    requires NoDuplicates(NodeIds(nodes))
    ensures var r := UpsertRecord(nodes, build);
      r.Success? ==>
        && Ids(r.value.vectorsByNode) == NodeIds(nodes)
        && r.value.totalVectorCount == VectorCount(r.value.vectorsByNode)
    decreases |nodes|
  {
    var r := UpsertRecord(nodes, build);
    if nodes != [] && r.Success? {
      var init, node := nodes[..|nodes| - 1], nodes[|nodes| - 1];
      NodeIdsSnoc(nodes);
      assert NoDuplicates(NodeIds(init)) by {
        assert forall i :: 0 <= i < |init| ==> NodeIds(init)[i] == NodeIds(nodes)[i];
      }
      UpsertRecordSnoc(nodes, build);
      UpsertRecordDistinct(init, build);
      var rec := UpsertRecord(init, build).value;
      var vectors := build(node).value;
      assert node.nodeId !in IdSet(rec.vectorsByNode) by {
        IdsAreIdSet(rec.vectorsByNode);
        forall k | 0 <= k < |init|
          ensures Ids(rec.vectorsByNode)[k] != node.nodeId
        {
          assert NodeIds(nodes)[k] != NodeIds(nodes)[|nodes| - 1];
        }
      }
      assert r.value.vectorsByNode == rec.vectorsByNode + [NodeEntry(node.nodeId, vectors)] by {
        SetPropertyKeys(rec.vectorsByNode, node.nodeId, vectors);
      }
      SnocEntry(rec.vectorsByNode, NodeEntry(node.nodeId, vectors));
    }
  }

  /** One more node: the record so far, extended by that node's vectors, or
      that node's error. */
  lemma UpsertRecordStep(nodes: seq<Node>, build: NodeVectorsBuilder, i: nat, record: UpsertVectorsRecord)
    requires i < |nodes| && UpsertRecord(nodes[..i], build) == Success(record)
    ensures UpsertRecord(nodes[..i + 1], build) ==
      match build(nodes[i])
      case Failure(e) => Failure(e)
      case Success(vectors) =>
        Success(UpsertVectorsRecord(record.totalVectorCount + |vectors|,
                                    SetProperty(record.vectorsByNode, nodes[i].nodeId, vectors)))
  {
    assert nodes[..i + 1][..i] == nodes[..i];
  }

  /** A record that fails to build stays failed as more nodes are added. */
  lemma {:induction false} UpsertRecordPrefixFails(nodes: seq<Node>, build: NodeVectorsBuilder, k: nat)
    requires k <= |nodes| && UpsertRecord(nodes[..k], build).Failure?
    ensures UpsertRecord(nodes, build) == UpsertRecord(nodes[..k], build)
    decreases |nodes| - k
  {
    if k < |nodes| {
      assert nodes[..k + 1][..k] == nodes[..k];
      UpsertRecordPrefixFails(nodes, build, k + 1);
    } else {
      assert nodes[..k] == nodes;
    }
  }

  /** What `upsert` returns: the record's error when a node cannot be built,
      otherwise what `execute` returns for the record, with the batch size of
      the call's options and the index's upsert endpoint. */
  ghost predicate UpsertOutcome(result: Result<UpsertResults, string>, nodes: seq<Node>,
                                upsertOptions: PineconeUpsertOptions, dimension: Dimension,
                                builder: SparseBuilderClass, remote: RemoteUpsert)
  {
    var record := UpsertRecord(nodes, NodeBuilder(upsertOptions.includeSparseValues, dimension, builder));
    && (record.Failure? ==> result == Failure(record.error))
    && (record.Success? ==> ExecuteOutcome(result, record.value, BatchSizeOf(upsertOptions.batchSize), remote))
  }

  /** `add` without options upserts with the default options. */
  function AddOptions(kwargs: Option<PineconeUpsertOptions>): PineconeUpsertOptions {
    if kwargs.Some? then kwargs.value else DEFAULT_UPSERT_OPTIONS
  }

  // ---------------------------------------------------------------------
  // Queries.
  // ---------------------------------------------------------------------

  /** llamaindex's `VectorStoreQueryMode`. */
  datatype VectorStoreQueryMode = Default | Sparse | Hybrid | Svm | LogisticRegression | LinearRegression | Mmr

  datatype VectorStoreQuery = VectorStoreQuery(
    queryEmbedding: Option<seq<int>>,
    similarityTopK: int,
    alpha: Option<real>,
    filters: Option<seq<MetadataFilter>>,
    mode: VectorStoreQueryMode)

  /** Builds a node back from the metadata of a match (`nodeHydrator`,
      already given its options). */
  type NodeHydrator = map<string, JsValue> -> Node

  /** The keyword arguments of `query` and `queryAll`. For the two flags,
      `None` means the key was not passed. */
  datatype QueryKwargs = QueryKwargs(
    namespace: Option<string>,
    vectorId: Option<string>,
    includeMetadata: Option<bool>,
    includeValues: Option<bool>,
    nodeHydrator: Option<NodeHydrator>)

  const NO_KWARGS := QueryKwargs(None, None, None, None, None)

  /** A match returned by Pinecone. */
  datatype ScoredVector = ScoredVector(id: string, score: Option<real>, metadata: Option<map<string, JsValue>>)

  /** The matches of a request on an index, when Pinecone returns any. */
  type RemoteQuery = (PineconeIndex, QueryRequest) -> Option<seq<ScoredVector>>

  datatype VectorStoreQueryResult = VectorStoreQueryResult(
    nodes: seq<Node>,
    similarities: seq<Option<real>>,
    ids: seq<JsValue>)

  /** The `TypeError` of building sparse values from an undefined query embedding. */
  const EMBEDDINGS_UNDEFINED := "TypeError: Cannot read properties of undefined (reading 'reduce')"
  /** The `TypeError` of reading `nodeId` from the metadata of a match that has none. */
  const METADATA_UNDEFINED := "TypeError: Cannot read properties of undefined (reading 'nodeId')"
  /** The `TypeError` of reading `nodeHydrator` when `query` got no keyword arguments. */
  const KWARGS_UNDEFINED := "TypeError: Cannot read properties of undefined (reading 'nodeHydrator')"

  function AsReals(values: seq<int>): (r: seq<real>)
    ensures |r| == |values| && forall i :: 0 <= i < |values| ==> r[i] == values[i] as real
  {
    seq(|values|, i requires 0 <= i < |values| => values[i] as real)
  }

  function ToSparseVector(sparseValues: SparseValues): SparseVector {
    SparseVector(sparseValues.indices, AsReals(sparseValues.values))
  }

  function QueryVector(queryEmbedding: Option<seq<int>>): Option<seq<real>> {
    if queryEmbedding.Some? then Some(AsReals(queryEmbedding.value)) else None
  }

  predicate UsesSparseValues(mode: VectorStoreQueryMode) {
    mode == Sparse || mode == Hybrid
  }

  /** The query builder options `queryAll` assembles: the query's embedding,
      top-k, alpha and filters; the namespace and vector id of the keyword
      arguments; the two flags only when they were passed; and, in sparse or
      hybrid mode, the sparse values of the query embedding. */
  function QueryAllOptions(query: VectorStoreQuery, kwargs: Option<QueryKwargs>,
                           builder: SparseBuilderClass): Result<PineconeQueryBuilderOptions, string>
  {
    var args := if kwargs.Some? then kwargs.value else NO_KWARGS;
    var options := PineconeQueryBuilderOptions(
      query.similarityTopK, args.namespace, args.vectorId, QueryVector(query.queryEmbedding), None,
      args.includeValues, args.includeMetadata, query.alpha, query.filters);
    if UsesSparseValues(query.mode) then
      if query.queryEmbedding.None? then Failure(EMBEDDINGS_UNDEFINED)
      else Success(options.(sparseVector := Some(ToSparseVector(SparseOf(builder, query.queryEmbedding.value)))))
    else Success(options)
  }

  /** The request `queryAll` sends, by the contracts of the query builder's
      constructor and of `toQueryRequest`. */
  function QueryAllRequest(query: VectorStoreQuery, kwargs: Option<QueryKwargs>,
                           builder: SparseBuilderClass): Result<QueryRequest, string>
  {
    match QueryAllOptions(query, kwargs, builder)
    case Failure(e) => Failure(e)
    case Success(o) =>
      if !StringTruthy(o.id) && o.vector.None? then Failure(ID_OR_VECTOR_REQUIRED)
      else if StringTruthy(o.id) && o.vector.Some? then Failure(ONLY_ONE_OF_ID_AND_VECTOR)
      else Success(QueryRequest(
        o.topK, o.includeValues != Some(false), o.includeMetadata != Some(false),
        if StringTruthy(o.namespace) then o.namespace else None,
        o.vector,
        if StringTruthy(o.id) then o.id else None,
        o.sparseVector))
  }

  /** The request carries the query's top-k and embedding; a flag is false
      only when it was passed as false; a sparse vector, the sparse values
      of the embedding, is attached exactly in sparse and hybrid mode; the
      call fails when sparse values are needed and there is no embedding, or
      when there is not exactly one of a vector id and an embedding; alpha
      and the filters never change the request. */
  lemma QueryAllRequestFacts(query: VectorStoreQuery, kwargs: Option<QueryKwargs>, builder: SparseBuilderClass)
    ensures var args := if kwargs.Some? then kwargs.value else NO_KWARGS;
      var r := QueryAllRequest(query, kwargs, builder);
      && (r.Failure? <==>
            (UsesSparseValues(query.mode) && query.queryEmbedding.None?) ||
            StringTruthy(args.vectorId) == query.queryEmbedding.Some?)
      && (r.Success? ==>
            && r.value.topK == query.similarityTopK
            && r.value.vector == QueryVector(query.queryEmbedding)
            && r.value.includeValues == (args.includeValues != Some(false))
            && r.value.includeMetadata == (args.includeMetadata != Some(false))
            && (r.value.sparseVector.Some? <==> UsesSparseValues(query.mode))
            && (UsesSparseValues(query.mode) ==>
                  r.value.sparseVector == Some(ToSparseVector(SparseOf(builder, query.queryEmbedding.value)))))
      && (forall alpha: Option<real> :: QueryAllRequest(query.(alpha := alpha), kwargs, builder) == r)
      && (forall filters: Option<seq<MetadataFilter>> :: QueryAllRequest(query.(filters := filters), kwargs, builder) == r)
  {
  }

  /** The keyword arguments `query` passes on to `queryAll`. */
  function QueryArgs(kwargs: Option<QueryKwargs>): QueryKwargs {
    var args := if kwargs.Some? then kwargs.value else NO_KWARGS;
    args.(includeValues := Some(false), includeMetadata := Some(true))
  }

  /** `query` never asks for the vectors' values and always for their
      metadata, whatever its keyword arguments say. */
  lemma QueryAsksForMetadataOnly(query: VectorStoreQuery, kwargs: Option<QueryKwargs>, builder: SparseBuilderClass)
    ensures var r := QueryAllRequest(query, Some(QueryArgs(kwargs)), builder);
      r.Success? ==> !r.value.includeValues && r.value.includeMetadata
  {
    QueryAllRequestFacts(query, Some(QueryArgs(kwargs)), builder);
  }

  /** `matches || []` */
  function MatchesOf(response: Option<seq<ScoredVector>>): seq<ScoredVector> {
    if response.Some? then response.value else []
  }

  /** `vectorMetadata.nodeId`: undefined when the metadata has no such key. */
  function NodeIdOf(metadata: map<string, JsValue>): JsValue {
    if "nodeId" in metadata then metadata["nodeId"] else JsUndefined
  }

  /** The `forEach` of `query` over the matches, match after match. */
  function QueryResultOf(matches: seq<ScoredVector>, kwargs: Option<QueryKwargs>): Result<VectorStoreQueryResult, string> {
    if matches == [] then Success(VectorStoreQueryResult([], [], []))
    else
      match QueryResultOf(matches[..|matches| - 1], kwargs)
      case Failure(e) => Failure(e)
      case Success(acc) =>
        var scoredVector := matches[|matches| - 1];
        if scoredVector.metadata.None? then Failure(METADATA_UNDEFINED)
        else if kwargs.None? then Failure(KWARGS_UNDEFINED)
        else
          var vectorMetadata := scoredVector.metadata.value;
          var hydrator := kwargs.value.nodeHydrator;
          Success(VectorStoreQueryResult(
            if hydrator.Some? then acc.nodes + [hydrator.value(vectorMetadata)] else acc.nodes,
            acc.similarities + [scoredVector.score],
            acc.ids + [NodeIdOf(vectorMetadata)]))
  }

  /** Every match has metadata. */
  predicate AllHaveMetadata(matches: seq<ScoredVector>) {
    forall i :: 0 <= i < |matches| ==> matches[i].metadata.Some?
  }

  /** A successful mapping extends the mapping of all matches but the last
      with the last match's node id, score and (with a hydrator) node. */
  lemma QueryResultSnoc(matches: seq<ScoredVector>, kwargs: Option<QueryKwargs>)
    requires matches != [] && QueryResultOf(matches, kwargs).Success?
    ensures var init, last := matches[..|matches| - 1], matches[|matches| - 1];
      && QueryResultOf(init, kwargs).Success? && last.metadata.Some? && kwargs.Some?
      && var acc, r := QueryResultOf(init, kwargs).value, QueryResultOf(matches, kwargs).value;
         var hydrator := kwargs.value.nodeHydrator;
         && r.ids == acc.ids + [NodeIdOf(last.metadata.value)]
         && r.similarities == acc.similarities + [last.score]
         && r.nodes == if hydrator.Some? then acc.nodes + [hydrator.value(last.metadata.value)] else acc.nodes
  {
  }

  /** The mapping succeeds exactly when every match has metadata and, if
      there is a match at all, keyword arguments were given; otherwise it
      fails with one of the two messages. */
  lemma {:induction false} QueryResultOutcome(matches: seq<ScoredVector>, kwargs: Option<QueryKwargs>)
    ensures var r := QueryResultOf(matches, kwargs);
      && (r.Success? <==> AllHaveMetadata(matches) && (matches != [] ==> kwargs.Some?))
      && (r.Failure? ==> r.error == METADATA_UNDEFINED || r.error == KWARGS_UNDEFINED)
    decreases |matches|
  {
    if matches != [] {
      var init := matches[..|matches| - 1];
      QueryResultOutcome(init, kwargs);
      assert AllHaveMetadata(matches) <==> AllHaveMetadata(init) && matches[|matches| - 1].metadata.Some? by {
        assert forall i :: 0 <= i < |init| ==> init[i] == matches[i];
      }
    }
  }

  /** On success `ids` and `similarities` follow the matches one for one:
      the metadata's `nodeId` and the score. */
  lemma {:induction false} QueryResultEntries(matches: seq<ScoredVector>, kwargs: Option<QueryKwargs>)
    requires QueryResultOf(matches, kwargs).Success?
    ensures var r := QueryResultOf(matches, kwargs).value;
      && |r.ids| == |r.similarities| == |matches|
      && forall i :: 0 <= i < |matches| ==>
           && matches[i].metadata.Some?
           && r.ids[i] == NodeIdOf(matches[i].metadata.value)
           && r.similarities[i] == matches[i].score
    decreases |matches|
  {
    if matches != [] {
      var init := matches[..|matches| - 1];
      QueryResultSnoc(matches, kwargs);
      QueryResultEntries(init, kwargs);
      assert forall i :: 0 <= i < |init| ==> init[i] == matches[i];
    }
  }

  /** On success `nodes` holds one hydrated node per match when a hydrator is
      given, and is empty otherwise. */
  lemma {:induction false} QueryResultNodes(matches: seq<ScoredVector>, kwargs: Option<QueryKwargs>)
    requires QueryResultOf(matches, kwargs).Success?
    ensures var r := QueryResultOf(matches, kwargs).value;
      && (matches != [] && kwargs.value.nodeHydrator.Some? ==>
            |r.nodes| == |matches| &&
            forall i :: 0 <= i < |matches| ==>
              matches[i].metadata.Some? &&
              r.nodes[i] == kwargs.value.nodeHydrator.value(matches[i].metadata.value))
      && (matches == [] || kwargs.value.nodeHydrator.None? ==> r.nodes == [])
    decreases |matches|
  {
    if matches != [] {
      var init := matches[..|matches| - 1];
      QueryResultSnoc(matches, kwargs);
      QueryResultNodes(init, kwargs);
      assert forall i :: 0 <= i < |init| ==> init[i] == matches[i];
    }
  }

  /** The three facts above together. */
  lemma QueryResultFacts(matches: seq<ScoredVector>, kwargs: Option<QueryKwargs>)
    ensures var r := QueryResultOf(matches, kwargs);
      && (r.Success? <==> AllHaveMetadata(matches) && (matches != [] ==> kwargs.Some?))
      && (r.Failure? ==> r.error == METADATA_UNDEFINED || r.error == KWARGS_UNDEFINED)
      && (r.Success? ==>
            && |r.value.ids| == |r.value.similarities| == |matches|
            && (forall i :: 0 <= i < |matches| ==>
                  && r.value.ids[i] == NodeIdOf(matches[i].metadata.value)
                  && r.value.similarities[i] == matches[i].score)
            && (matches != [] && kwargs.value.nodeHydrator.Some? ==>
                  |r.value.nodes| == |matches| &&
                  forall i :: 0 <= i < |matches| ==>
                    r.value.nodes[i] == kwargs.value.nodeHydrator.value(matches[i].metadata.value))
            && (matches == [] || kwargs.value.nodeHydrator.None? ==> r.value.nodes == []))
  {
    QueryResultOutcome(matches, kwargs);
    if QueryResultOf(matches, kwargs).Success? {
      QueryResultEntries(matches, kwargs);
      QueryResultNodes(matches, kwargs);
    }
  }

  lemma {:induction false} QueryResultPrefixFails(matches: seq<ScoredVector>, kwargs: Option<QueryKwargs>, k: nat)
    requires k <= |matches| && QueryResultOf(matches[..k], kwargs).Failure?
    ensures QueryResultOf(matches, kwargs) == QueryResultOf(matches[..k], kwargs)
    decreases |matches| - k
  {
    if k < |matches| {
      assert matches[..k + 1][..k] == matches[..k];
      QueryResultPrefixFails(matches, kwargs, k + 1);
    } else {
      assert matches[..k] == matches;
    }
  }

  /** The `forEach` of `query`: pushes each match's node id and score, and
      its hydrated node when a hydrator is given. */
  method MapMatches(queryResults: seq<ScoredVector>, kwargs: Option<QueryKwargs>)
    returns (result: Result<VectorStoreQueryResult, string>)
    ensures result == QueryResultOf(queryResults, kwargs)
  {
    var vectorStoreQueryResult := VectorStoreQueryResult([], [], []);
    for i := 0 to |queryResults|
      invariant QueryResultOf(queryResults[..i], kwargs) == Success(vectorStoreQueryResult)
    {
      var scoredVector := queryResults[i];
      assert queryResults[..i + 1][..i] == queryResults[..i];
      if scoredVector.metadata.None? {
        QueryResultPrefixFails(queryResults, kwargs, i + 1);
        return Failure(METADATA_UNDEFINED);
      }
      var vectorMetadata := scoredVector.metadata.value;
      var ids := vectorStoreQueryResult.ids + [NodeIdOf(vectorMetadata)];
      var similarities := vectorStoreQueryResult.similarities + [scoredVector.score];
      if kwargs.None? {
        QueryResultPrefixFails(queryResults, kwargs, i + 1);
        return Failure(KWARGS_UNDEFINED);
      }
      var nodes := vectorStoreQueryResult.nodes;
      if kwargs.value.nodeHydrator.Some? {
        nodes := nodes + [kwargs.value.nodeHydrator.value(vectorMetadata)];
      }
      vectorStoreQueryResult := VectorStoreQueryResult(nodes, similarities, ids);
    }
    assert queryResults[..|queryResults|] == queryResults;
    return Success(vectorStoreQueryResult);
  }

  // ---------------------------------------------------------------------
  // The store.
  // ---------------------------------------------------------------------

  class PineconeVectorStore {
    const indexName: string
    const namespace: Option<string>
    const sparseVectorBuilder: SparseBuilderClass
    /** The cached index handle and index statistics. */
    var pineconeIndex: Option<PineconeIndex>
    var pineconeIndexStats: Option<PineconeIndexStats>
    /** The number of `describeIndexStats` requests made so far. */
    ghost var statsRequests: nat

    /** A cached index handle is the handle of the store's index, and
        statistics are only ever cached after the handle. */
    predicate Valid()
      reads this
    {
      && (pineconeIndex.Some? ==> pineconeIndex.value == PineconeIndex(indexName))
      && (pineconeIndexStats.Some? ==> pineconeIndex.Some?)
    }

    /** The sparse builder defaults to the histogram builder; nothing is cached yet. */
    constructor(options: PineconeVectorStoreOptions)
      ensures indexName == options.indexName && namespace == options.namespace
      ensures sparseVectorBuilder ==
        if options.sparseVectorBuilder.Some? then options.sparseVectorBuilder.value else NaiveSparseValuesBuilderClass
      ensures pineconeIndex == None && pineconeIndexStats == None && statsRequests == 0
      ensures Valid()
    {
      indexName := options.indexName;
      namespace := options.namespace;
      sparseVectorBuilder :=
        if options.sparseVectorBuilder.Some? then options.sparseVectorBuilder.value else NaiveSparseValuesBuilderClass;
      pineconeIndex := None;
      pineconeIndexStats := None;
      statsRequests := 0;
    }

    /** `getIndex`: the cached handle unless there is none or a refresh is
        forced; then a new handle for the store's index, which is cached. */
    method GetIndex(forceRefresh: bool) returns (index: PineconeIndex)
      requires Valid()
      modifies this
      ensures Valid()
      ensures index == if old(pineconeIndex).Some? && !forceRefresh then old(pineconeIndex).value else PineconeIndex(indexName)
      ensures index == PineconeIndex(indexName) && pineconeIndex == Some(index)
      ensures pineconeIndexStats == old(pineconeIndexStats) && statsRequests == old(statsRequests)
    {
      if pineconeIndex.Some? && !forceRefresh {
        return pineconeIndex.value;
      }
      pineconeIndex := Some(PineconeIndex(indexName));
      return pineconeIndex.value;
    }

    /** `getIndexStats`: the cached statistics, without a request, unless
        there are none or a refresh is forced; then the statistics of the
        index are requested and cached. */
    method GetIndexStats(forceRefresh: bool, describeIndexStats: DescribeIndexStats) returns (stats: PineconeIndexStats)
      requires Valid()
      modifies this
      ensures Valid()
      ensures pineconeIndexStats == Some(stats)
      ensures old(pineconeIndexStats).Some? && !forceRefresh ==>
        stats == old(pineconeIndexStats).value && pineconeIndex == old(pineconeIndex) &&
        statsRequests == old(statsRequests)
      ensures !(old(pineconeIndexStats).Some? && !forceRefresh) ==>
        stats == describeIndexStats(PineconeIndex(indexName)) && pineconeIndex == Some(PineconeIndex(indexName)) &&
        statsRequests == old(statsRequests) + 1
    {
      if pineconeIndexStats.Some? && !forceRefresh {
        return pineconeIndexStats.value;
      }
      var index := GetIndex(false);
      var indexStats := describeIndexStats(index);
      statsRequests := statsRequests + 1;
      pineconeIndexStats := Some(indexStats);
      return indexStats;
    }

    /** The loop of `upsert`: builds each node's vectors with the index
        dimension and adds them to the record. */
    method BuildVectorsByNode(nodesWithEmbeddings: seq<Node>, upsertOptions: PineconeUpsertOptions, dimension: Dimension)
      returns (result: Result<UpsertVectorsRecord, string>)
      ensures result == UpsertRecord(nodesWithEmbeddings,
                                     NodeBuilder(upsertOptions.includeSparseValues, dimension, sparseVectorBuilder))
    {
      var build := NodeBuilder(upsertOptions.includeSparseValues, dimension, sparseVectorBuilder);
      var builtVectorsByNode := UpsertVectorsRecord(0, []);
      for i := 0 to |nodesWithEmbeddings|
        invariant UpsertRecord(nodesWithEmbeddings[..i], build) == Success(builtVectorsByNode)
      {
        var node := nodesWithEmbeddings[i];
        if node.embedding.None? {
          UpsertRecordStep(nodesWithEmbeddings, build, i, builtVectorsByNode);
          UpsertRecordPrefixFails(nodesWithEmbeddings, build, i + 1);
          return Failure(NoEmbeddingMessage(node.nodeId));
        }
        var vectorBuilderOptions :=
          VectorsBuilderOptions(upsertOptions.includeSparseValues, dimension, Some(sparseVectorBuilder));
        var vectorsBuilder := new PineconeVectorsBuilder(node, node.embedding.value, vectorBuilderOptions);
        var vectors := vectorsBuilder.BuildVectors();
        UpsertRecordStep(nodesWithEmbeddings, build, i, builtVectorsByNode);
        assert vectors == build(node);
        if vectors.Failure? {
          UpsertRecordPrefixFails(nodesWithEmbeddings, build, i + 1);
          return Failure(vectors.error);
        }
        builtVectorsByNode := UpsertVectorsRecord(
          builtVectorsByNode.totalVectorCount + |vectors.value|,
          SetProperty(builtVectorsByNode.vectorsByNode, node.nodeId, vectors.value));
      }
      assert nodesWithEmbeddings[..|nodesWithEmbeddings|] == nodesWithEmbeddings;
      return Success(builtVectorsByNode);
    }

    /** `upsert`: reads the (cached) index statistics, builds the record of
        every node's vectors and hands it to a new upserter for the index. */
    method Upsert(nodesWithEmbeddings: seq<Node>, upsertOptions: PineconeUpsertOptions,
                  describeIndexStats: DescribeIndexStats, upsertTo: PineconeIndex -> RemoteUpsert)
      returns (result: Result<UpsertResults, string>)
      requires Valid()
      modifies this
      ensures Valid() && pineconeIndex == Some(PineconeIndex(indexName))
      ensures pineconeIndexStats ==
        if old(pineconeIndexStats).Some? then old(pineconeIndexStats) else Some(describeIndexStats(PineconeIndex(indexName)))
      ensures UpsertOutcome(result, nodesWithEmbeddings, upsertOptions, pineconeIndexStats.value.dimension,
                            sparseVectorBuilder, upsertTo(PineconeIndex(indexName)))
    {
      var indexStats := GetIndexStats(false, describeIndexStats);
      var builtVectorsByNode := BuildVectorsByNode(nodesWithEmbeddings, upsertOptions, indexStats.dimension);
      if builtVectorsByNode.Failure? {
        return Failure(builtVectorsByNode.error);
      }
      var index := GetIndex(false);
      var vectorsUpsert := new PineconeVectorsUpsert(upsertTo(index), upsertOptions);
      result := vectorsUpsert.Execute(builtVectorsByNode.value);
    }

    /** `add`: upserts (with the default options when none are given) and
        returns the ids of the upserted nodes. */
    method Add(embeddingResults: seq<Node>, kwargs: Option<PineconeUpsertOptions>,
               describeIndexStats: DescribeIndexStats, upsertTo: PineconeIndex -> RemoteUpsert)
      returns (result: Result<seq<string>, string>, ghost upsertResults: Result<UpsertResults, string>)
      requires Valid()
      modifies this
      ensures Valid() && pineconeIndex == Some(PineconeIndex(indexName))
      ensures pineconeIndexStats ==
        if old(pineconeIndexStats).Some? then old(pineconeIndexStats) else Some(describeIndexStats(PineconeIndex(indexName)))
      ensures UpsertOutcome(upsertResults, embeddingResults, AddOptions(kwargs), pineconeIndexStats.value.dimension,
                            sparseVectorBuilder, upsertTo(PineconeIndex(indexName)))
      ensures result == if upsertResults.Success? then Success(upsertResults.value.upsertedNodeIds)
                        else Failure(upsertResults.error)
    {
      var results := Upsert(embeddingResults, AddOptions(kwargs), describeIndexStats, upsertTo);
      upsertResults := results;
      if results.Failure? {
        return Failure(results.error), upsertResults;
      }
      return Success(results.value.upsertedNodeIds), upsertResults;
    }

    /** `queryAll`: assembles the builder options, builds the request and
        returns the matches of the store's index (none when Pinecone sends
        no matches). The index handle is fetched only once the request is
        built. */
    method QueryAll(query: VectorStoreQuery, kwargs: Option<QueryKwargs>, remoteQuery: RemoteQuery)
      returns (result: Result<seq<ScoredVector>, string>)
      requires Valid()
      modifies this
      ensures Valid()
      ensures pineconeIndexStats == old(pineconeIndexStats) && statsRequests == old(statsRequests)
      ensures var request := QueryAllRequest(query, kwargs, sparseVectorBuilder);
        && (request.Failure? ==> result == Failure(request.error) && pineconeIndex == old(pineconeIndex))
        && (request.Success? ==>
              result == Success(MatchesOf(remoteQuery(PineconeIndex(indexName), request.value))) &&
              pineconeIndex == Some(PineconeIndex(indexName)))
    {
      var queryBuilderOptions := QueryAllOptions(query, kwargs, sparseVectorBuilder);
      if queryBuilderOptions.Failure? {
        return Failure(queryBuilderOptions.error);
      }
      var queryBuilder := NewPineconeQueryBuilder(queryBuilderOptions.value);
      if queryBuilder.Failure? {
        return Failure(queryBuilder.error);
      }
      var index := GetIndex(false);
      var queryRequest := ToQueryRequest(queryBuilder.value);
      var matches := remoteQuery(index, queryRequest);
      return Success(MatchesOf(matches));
    }

    /** `query`: runs `queryAll` asking for metadata and not values, then
        maps the matches to ids, similarities and, with a hydrator, nodes. */
    method Query(query: VectorStoreQuery, kwargs: Option<QueryKwargs>, remoteQuery: RemoteQuery)
      returns (result: Result<VectorStoreQueryResult, string>)
      requires Valid()
      modifies this
      ensures Valid()
      ensures pineconeIndexStats == old(pineconeIndexStats) && statsRequests == old(statsRequests)
      ensures var request := QueryAllRequest(query, Some(QueryArgs(kwargs)), sparseVectorBuilder);
        && (request.Failure? ==> result == Failure(request.error) && pineconeIndex == old(pineconeIndex))
        && (request.Success? ==>
              result == QueryResultOf(MatchesOf(remoteQuery(PineconeIndex(indexName), request.value)), kwargs) &&
              pineconeIndex == Some(PineconeIndex(indexName)))
    {
      var queryResults := QueryAll(query, Some(QueryArgs(kwargs)), remoteQuery);
      if queryResults.Failure? {
        return Failure(queryResults.error);
      }
      result := MapMatches(queryResults.value, kwargs);
    }
  }
}
