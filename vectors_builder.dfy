/** `PineconeVectorsBuilder`: turns one node and its embedding into Pinecone
    vectors of a fixed dimension. The embedding is cut into `dimension`-sized
    chunks; chunk k becomes the vector `<nodeId>-<k>`, carrying the node's
    metadata and, on request, sparse values computed from the chunk; finally
    the last vector is zero-padded to the full dimension. */
module VectorsBuilder {
  import opened Wrappers
  import opened SeqUtils
  import opened JsSemantics
  import opened SparseValues
  import opened Nodes
  import NaiveSparseValuesBuilder
  import NaiveSparseValueBuilder

  /** A Pinecone vector as the builder assembles it. */
  datatype Vector = Vector(
    id: string,
    values: seq<int>,
    sparseValues: Option<SparseValues>,
    metadata: map<string, JsValue>)

  /** A class that can be passed as `sparseVectorBuilder`: any class
      constructed from an embedding whose `build()` gives sparse values. The
      library's two histogram builders are named; any other class (a BM25 or
      SPLADE encoder, say) is given by what its `build()` computes. */
  datatype SparseBuilderClass =
    | NaiveSparseValuesBuilderClass
    | NaiveSparseValueBuilderClass
    | OtherSparseBuilderClass(build: seq<int> -> SparseValues)

  /** `new this.sparseVectorBuilder(embedding).build()` */
  function SparseOf(builder: SparseBuilderClass, embedding: seq<int>): SparseValues {
    match builder
    case NaiveSparseValuesBuilderClass => NaiveSparseValuesBuilder.Histogram(embedding)
    case NaiveSparseValueBuilderClass => NaiveSparseValueBuilder.SwappedHistogram(embedding)
    case OtherSparseBuilderClass(build) => build(embedding)
  }

  datatype VectorsBuilderOptions = VectorsBuilderOptions(
    includeSparseValues: Option<bool>,
    dimension: nat,
    sparseVectorBuilder: Option<SparseBuilderClass>)

  /** The id of the k-th vector of a node: `${nodeId}-${k}`. */
  function VectorId(nodeId: string, k: nat): (id: string)
    ensures |id| > |nodeId| + 1 && id[..|nodeId|] == nodeId && id[|nodeId|] == '-'
  {
    nodeId + "-" + NatToString(k)
  }

  /** Two different sub-ids of the same node give two different vector ids. */
  lemma VectorIdsDistinct(nodeId: string, j: nat, k: nat)
    requires j != k
    ensures VectorId(nodeId, j) != VectorId(nodeId, k)
  {
    var prefix := nodeId + "-";
    if VectorId(nodeId, j) == VectorId(nodeId, k) {
      assert NatToString(j) == VectorId(nodeId, j)[|prefix|..];
      assert NatToString(k) == VectorId(nodeId, k)[|prefix|..];
      NatToStringInjective(j, k);
    }
  }

  /** `extractNodeMetadata`: `{ id: node.nodeId, ...node.metadata }`. Every
      metadata entry is kept, and `id` is the node's id unless the metadata
      has its own `id` entry. */
  function NodeMetadata(node: Node): (metadata: map<string, JsValue>)
    ensures metadata.Keys == node.metadata.Keys + {"id"}
    ensures forall k :: k in node.metadata ==> metadata[k] == node.metadata[k]
    ensures "id" !in node.metadata ==> metadata["id"] == JsString(node.nodeId)
  {
    map["id" := JsString(node.nodeId)] + node.metadata
  }

  /** `buildVector(embedding, vectorSubId)` as a value: the chunk as values,
      sparse values of the same chunk when they are requested. */
  function ChunkVector(node: Node, chunk: seq<int>, vectorSubId: nat,
                       includeSparseValues: bool, builder: SparseBuilderClass): Vector
  {
    Vector(VectorId(node.nodeId, vectorSubId), chunk,
           if includeSparseValues then Some(SparseOf(builder, chunk)) else None,
           NodeMetadata(node))
  }

  /** The values of the last vector after `normalizedVectors`: zeros appended
      up to the dimension when the values are shorter. */
  function PadValues(values: seq<int>, dimension: nat): seq<int> {
    if |values| < dimension then values + Zeros(dimension - |values|) else values
  }

  /** `normalizedVectors` on a non-empty list of vectors. */
  function PadLast(vectors: seq<Vector>, dimension: nat): seq<Vector>
    requires vectors != []
  {
    var last := vectors[|vectors| - 1];
    vectors[..|vectors| - 1] + [last.(values := PadValues(last.values, dimension))]
  }

  /** Normalising changes only the last vector, and only its values. */
  lemma PadLastAt(vectors: seq<Vector>, dimension: nat, k: nat)
    requires vectors != [] && k < |vectors|
    ensures |PadLast(vectors, dimension)| == |vectors|
    ensures k < |vectors| - 1 ==> PadLast(vectors, dimension)[k] == vectors[k]
    ensures k == |vectors| - 1 ==>
      PadLast(vectors, dimension)[k] == vectors[k].(values := PadValues(vectors[k].values, dimension))
  {
  }

  /** The vectors pushed by `buildVectors`, before they are normalised. */
  function UnpaddedVectors(node: Node, embedding: seq<int>, includeSparseValues: bool,
                           dimension: nat, builder: SparseBuilderClass): seq<Vector>
    requires dimension >= 1
  {
    var chunks := Chunks(embedding, dimension);
    seq(|chunks|, k requires 0 <= k < |chunks| =>
      ChunkVector(node, chunks[k], k, includeSparseValues, builder))
  }

  /** The `TypeError` raised by reading `values` of an undefined last vector. */
  const LAST_VECTOR_UNDEFINED := "TypeError: Cannot read properties of undefined (reading 'values')"

  /** What `buildVectors` returns: the normalised vectors, or the `TypeError`
      that `normalizedVectors` raises on an empty list (the embedding was empty). */
  function Vectors(node: Node, embedding: seq<int>, includeSparseValues: bool,
                   dimension: nat, builder: SparseBuilderClass): Result<seq<Vector>, string>
    requires dimension >= 1
  {
    var unpadded := UnpaddedVectors(node, embedding, includeSparseValues, dimension, builder);
    if unpadded == [] then Failure(LAST_VECTOR_UNDEFINED)
    else Success(PadLast(unpadded, dimension))
  }

  /** The list of chunks is empty exactly when the embedding is. */
  lemma {:induction false} ChunksEmpty(embedding: seq<int>, dimension: nat)
    requires dimension >= 1
    ensures Chunks(embedding, dimension) == [] <==> embedding == []
  {
    ChunksCount(embedding, dimension);
  }

  /** `buildVectors` fails exactly on an empty embedding, and otherwise
      returns ceil(L / D) vectors. */
  lemma VectorsCount(node: Node, embedding: seq<int>, includeSparseValues: bool,
                     dimension: nat, builder: SparseBuilderClass)
    requires dimension >= 1
    ensures var r := Vectors(node, embedding, includeSparseValues, dimension, builder);
      && (r.Failure? <==> embedding == [])
      && (r.Success? ==> |r.value| == CeilDiv(|embedding|, dimension))
  {
    ChunksEmpty(embedding, dimension);
    ChunksCount(embedding, dimension);
  }

  /** The k-th vector is named `<nodeId>-<k>`, carries the node's metadata and
      has exactly `dimension` values. */
  lemma VectorAt(node: Node, embedding: seq<int>, includeSparseValues: bool,
                 dimension: nat, builder: SparseBuilderClass, k: nat)
    requires dimension >= 1
    requires Vectors(node, embedding, includeSparseValues, dimension, builder).Success?
    requires k < |Vectors(node, embedding, includeSparseValues, dimension, builder).value|
    ensures var v := Vectors(node, embedding, includeSparseValues, dimension, builder).value[k];
      && v.id == VectorId(node.nodeId, k)
      && v.metadata == NodeMetadata(node)
      && |v.values| == dimension
  {
    var unpadded := UnpaddedVectors(node, embedding, includeSparseValues, dimension, builder);
    PadLastAt(unpadded, dimension, k);
    ChunksCount(embedding, dimension);
    ChunkFrom(embedding, dimension, k);
  }

  /** Within one call every vector id is distinct. */
  lemma VectorIdsUnique(node: Node, embedding: seq<int>, includeSparseValues: bool,
                        dimension: nat, builder: SparseBuilderClass)
    requires dimension >= 1
    ensures var r := Vectors(node, embedding, includeSparseValues, dimension, builder);
      r.Success? ==> forall j, k :: 0 <= j < k < |r.value| ==> r.value[j].id != r.value[k].id
  {
    var r := Vectors(node, embedding, includeSparseValues, dimension, builder);
    if r.Success? {
      forall j, k | 0 <= j < k < |r.value|
        ensures r.value[j].id != r.value[k].id
      {
        VectorAt(node, embedding, includeSparseValues, dimension, builder, j);
        VectorAt(node, embedding, includeSparseValues, dimension, builder, k);
        VectorIdsDistinct(node.nodeId, j, k);
      }
    }
  }

  /** Chunk k of the embedding in the form `embedding[k*D ..][.. min(D, L - k*D)]`. */
  lemma {:induction false} ChunkFrom(embedding: seq<int>, dimension: nat, k: nat)
    requires dimension >= 1 && k < |Chunks(embedding, dimension)|
    ensures k * dimension < |embedding|
    ensures Chunks(embedding, dimension)[k] ==
      embedding[k * dimension..][..Min(dimension, |embedding| - k * dimension)]
  {
    ChunkAt(embedding, dimension, k);
    MulSucc(k, dimension);
  }

  /** Vector k holds chunk k of the embedding, the `dimension` values from
      position k*D (fewer for the last chunk); only the last vector is
      changed, by appending zeros up to the dimension. */
  lemma VectorValues(node: Node, embedding: seq<int>, includeSparseValues: bool,
                     dimension: nat, builder: SparseBuilderClass, k: nat)
    requires dimension >= 1
    requires Vectors(node, embedding, includeSparseValues, dimension, builder).Success?
    requires k < |Vectors(node, embedding, includeSparseValues, dimension, builder).value|
    ensures k * dimension < |embedding|
    ensures var vs := Vectors(node, embedding, includeSparseValues, dimension, builder).value;
      var chunk := embedding[k * dimension..][..Min(dimension, |embedding| - k * dimension)];
      && (k < |vs| - 1 ==> vs[k].values == chunk)
      && (k == |vs| - 1 ==> vs[k].values == chunk + Zeros(dimension - |chunk|))
  {
    var unpadded := UnpaddedVectors(node, embedding, includeSparseValues, dimension, builder);
    PadLastAt(unpadded, dimension, k);
    ChunkFrom(embedding, dimension, k);
  }

  /** Sparse values are computed from each vector's own chunk before the
      padding: with `includeSparseValues` they are the sparse builder's result
      on the unpadded chunk, and without it no vector has any. */
  lemma VectorSparseValues(node: Node, embedding: seq<int>, includeSparseValues: bool,
                           dimension: nat, builder: SparseBuilderClass, k: nat)
    requires dimension >= 1
    requires Vectors(node, embedding, includeSparseValues, dimension, builder).Success?
    requires k < |Vectors(node, embedding, includeSparseValues, dimension, builder).value|
    ensures k * dimension < |embedding|
    ensures var v := Vectors(node, embedding, includeSparseValues, dimension, builder).value[k];
      var chunk := embedding[k * dimension..][..Min(dimension, |embedding| - k * dimension)];
      v.sparseValues == if includeSparseValues then Some(SparseOf(builder, chunk)) else None
  {
    var unpadded := UnpaddedVectors(node, embedding, includeSparseValues, dimension, builder);
    PadLastAt(unpadded, dimension, k);
    ChunkFrom(embedding, dimension, k);
  }

  /** `normalizeEmbedding`: copies the embedding value by value (the coercion
      of BigInt token ids to numbers is the identity on integers). */
  method NormalizeEmbedding(embedding: seq<int>) returns (numericEmbeddings: seq<int>)
    ensures |numericEmbeddings| == |embedding|
    ensures forall i :: 0 <= i < |embedding| ==> numericEmbeddings[i] == embedding[i]
  {
    numericEmbeddings := [];
    for i := 0 to |embedding|
      invariant numericEmbeddings == embedding[..i]
    {
      numericEmbeddings := numericEmbeddings + [embedding[i]];
    }
  }

  class PineconeVectorsBuilder {
    const node: Node
    const embedding: seq<int>
    const includeSparseValues: bool
    const dimension: nat
    const sparseVectorBuilder: SparseBuilderClass

    /** `includeSparseValues` defaults to false and the sparse builder to the
        histogram builder of the `sparse_values` directory. */
    constructor (node: Node, embedding: seq<int>, options: VectorsBuilderOptions)
      ensures this.node == node && this.embedding == embedding
      ensures includeSparseValues == (options.includeSparseValues == Some(true))
      ensures dimension == options.dimension
      ensures sparseVectorBuilder ==
        if options.sparseVectorBuilder.Some? then options.sparseVectorBuilder.value
        else NaiveSparseValuesBuilderClass
    {
      this.node := node;
      var normalized := NormalizeEmbedding(embedding);
      this.embedding := normalized;
      this.includeSparseValues := options.includeSparseValues == Some(true);
      this.dimension := options.dimension;
      this.sparseVectorBuilder :=
        if options.sparseVectorBuilder.Some? then options.sparseVectorBuilder.value
        else NaiveSparseValuesBuilderClass;
    }

    /** `buildSparseValues`: instantiate the configured builder on the chunk and build. */
    method BuildSparseValues(chunk: seq<int>) returns (sparseValues: SparseValues)
      ensures sparseValues == SparseOf(sparseVectorBuilder, chunk)
    {
      match sparseVectorBuilder
      case NaiveSparseValuesBuilderClass =>
        sparseValues := NaiveSparseValuesBuilder.Build(chunk);
      case NaiveSparseValueBuilderClass =>
        sparseValues := NaiveSparseValueBuilder.Build(chunk);
      case OtherSparseBuilderClass(build) =>
        sparseValues := build(chunk);
    }

    /** `buildVector` */
    method BuildVector(chunk: seq<int>, vectorSubId: nat) returns (vector: Vector)
      ensures vector == ChunkVector(node, chunk, vectorSubId, includeSparseValues, sparseVectorBuilder)
    {
      vector := Vector(VectorId(node.nodeId, vectorSubId), chunk, None, NodeMetadata(node));
      if includeSparseValues {
        var sparseValues := BuildSparseValues(chunk);
        vector := vector.(sparseValues := Some(sparseValues));
      }
    }

    /** `embeddingChunks`: steps `chunkIndex` by `dimension` while it is below
        the embedding's length, taking `slice(chunkIndex, chunkIndex + dimension)`. */
    method EmbeddingChunks() returns (chunks: seq<seq<int>>)
      requires dimension >= 1
      ensures chunks == Chunks(embedding, dimension)
    {
      chunks := [];
      var chunkIndex := 0;
      while chunkIndex < |embedding|
        invariant chunks + Chunks(embedding[Min(chunkIndex, |embedding|)..], dimension) == Chunks(embedding, dimension)
        decreases |embedding| - chunkIndex
      {
        var rest := embedding[chunkIndex..];
        var chunk := embedding[chunkIndex .. Min(chunkIndex + dimension, |embedding|)];
        if chunkIndex + dimension < |embedding| {
          assert chunk == rest[..dimension] && rest[dimension..] == embedding[chunkIndex + dimension..];
        } else {
          assert chunk == rest;
        }
        chunks := chunks + [chunk];
        chunkIndex := chunkIndex + dimension;
      }
    }

    /** `normalizedVectors`: reads the last vector, throwing when there is
        none, and replaces its values by the zero-padded values in place. */
    method NormalizedVectors(vectors: array<Vector>) returns (error: Option<string>)
      modifies vectors
      ensures error == if vectors.Length == 0 then Some(LAST_VECTOR_UNDEFINED) else None
      ensures error.None? ==> vectors[..] == PadLast(old(vectors[..]), dimension)
    {
      if vectors.Length == 0 {
        return Some(LAST_VECTOR_UNDEFINED);
      }
      var lastVector := vectors[vectors.Length - 1];
      if |lastVector.values| < dimension {
        vectors[vectors.Length - 1] :=
          lastVector.(values := lastVector.values + Zeros(dimension - |lastVector.values|));
      }
      assert vectors[..vectors.Length - 1] == old(vectors[..])[..vectors.Length - 1];
      return None;
    }

    /** `buildVectors`: one vector per chunk, numbered from 0, then normalised. */
    method BuildVectors() returns (result: Result<seq<Vector>, string>)
      requires dimension >= 1
      ensures result == Vectors(node, embedding, includeSparseValues, dimension, sparseVectorBuilder)
    {
      var chunks := EmbeddingChunks();
      var builtVectors := new Vector[|chunks|];
      var vectorSubId := 0;
      while vectorSubId < |chunks|
        invariant 0 <= vectorSubId <= |chunks|
        invariant forall k :: 0 <= k < vectorSubId ==>
          builtVectors[k] == ChunkVector(node, chunks[k], k, includeSparseValues, sparseVectorBuilder)
      {
        var vector := BuildVector(chunks[vectorSubId], vectorSubId);
        builtVectors[vectorSubId] := vector;
        vectorSubId := vectorSubId + 1;
      }
      assert builtVectors[..] == UnpaddedVectors(node, embedding, includeSparseValues, dimension, sparseVectorBuilder);
      var error := NormalizedVectors(builtVectors);
      if error.Some? {
        return Failure(error.value);
      }
      return Success(builtVectors[..]);
    }
  }
}
