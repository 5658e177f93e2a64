/** `PineconeVectorsUpsert`: sends the vectors of many nodes to Pinecone,
    in one request when they fit in a batch and in batches otherwise, and
    accounts for which nodes were upserted and which failed. The remote
    `upsert` call is a function parameter: given the vectors of one request,
    it returns the upserted count or the rendering of the error it threw. */
module VectorsUpsert {
  import opened Wrappers
  import opened JsSemantics
  import opened SeqUtils
  import opened VectorsBuilder

  /** One `[nodeId, vectors]` entry of a `NodePineconeVectorMap`; the map is
      the list of its entries in enumeration order. */
  datatype NodeEntry = NodeEntry(nodeId: string, vectors: seq<Vector>)

  /** A vector together with the node it belongs to. */
  datatype NodeVector = NodeVector(nodeId: string, vector: Vector)

  /** `PineconeUpsertVectorsRecord`, as built by the store's `upsert`. */
  datatype UpsertVectorsRecord = UpsertVectorsRecord(totalVectorCount: nat, vectorsByNode: seq<NodeEntry>)

  /** The record `singleUpsert` and `batchUpsert` return. */
  datatype UpsertResults = UpsertResults(
    upsertedNodeCount: nat,
    upsertedNodeIds: seq<string>,
    upsertedVectorCount: nat,
    upsertedVectorByNode: seq<NodeEntry>,
    failedNodeCount: nat,
    failedNodeIds: seq<string>,
    errors: seq<string>)

  /** The remote `index.upsert`: the upserted count, or the thrown error as text. */
  type RemoteUpsert = seq<Vector> -> Result<nat, string>

  const DEFAULT_UPSERT_BATCH_SIZE: nat := 100
  const PINECONE_ERROR_PREFIX := "Error with call to Pinecone: "

  // ---------------------------------------------------------------------
  // Views of a vector map: ids, vector counts, flattened and tagged vectors.
  // ---------------------------------------------------------------------

  function Ids(entries: seq<NodeEntry>): (ids: seq<string>)
    ensures |ids| == |entries| && forall i :: 0 <= i < |entries| ==> ids[i] == entries[i].nodeId
  {
    seq(|entries|, i requires 0 <= i < |entries| => entries[i].nodeId)
  }

  function IdSet(entries: seq<NodeEntry>): set<string> {
    set e | e in entries :: e.nodeId
  }

  function VectorCount(entries: seq<NodeEntry>): nat {
    if entries == [] then 0
    else VectorCount(entries[..|entries| - 1]) + |entries[|entries| - 1].vectors|
  }

  /** The concatenation of the entries' vectors, in entry order (the `reduce`
      over `concat` of `singleUpsert` and of each batch request). */
  function AllVectors(entries: seq<NodeEntry>): seq<Vector> {
    if entries == [] then []
    else AllVectors(entries[..|entries| - 1]) + entries[|entries| - 1].vectors
  }

  function Tag(entry: NodeEntry): (r: seq<NodeVector>)
    ensures |r| == |entry.vectors|
  {
    seq(|entry.vectors|, k requires 0 <= k < |entry.vectors| => NodeVector(entry.nodeId, entry.vectors[k]))
  }

  /** Every vector of the map, tagged with its node, in order. */
  function Tagged(entries: seq<NodeEntry>): seq<NodeVector> {
    if entries == [] then []
    else Tagged(entries[..|entries| - 1]) + Tag(entries[|entries| - 1])
  }

  /** The tagged vectors of a list of batches, batch after batch. */
  function TaggedAll(batches: seq<seq<NodeEntry>>): seq<NodeVector> {
    if batches == [] then []
    else TaggedAll(batches[..|batches| - 1]) + Tagged(batches[|batches| - 1])
  }

  function AllIds(batches: seq<seq<NodeEntry>>): set<string> {
    if batches == [] then {}
    else AllIds(batches[..|batches| - 1]) + IdSet(batches[|batches| - 1])
  }

  function SumVectorCounts(batches: seq<seq<NodeEntry>>): nat {
    if batches == [] then 0
    else SumVectorCounts(batches[..|batches| - 1]) + VectorCount(batches[|batches| - 1])
  }

  lemma SnocEntry(entries: seq<NodeEntry>, e: NodeEntry)
    ensures Tagged(entries + [e]) == Tagged(entries) + Tag(e)
    ensures VectorCount(entries + [e]) == VectorCount(entries) + |e.vectors|
    ensures AllVectors(entries + [e]) == AllVectors(entries) + e.vectors
    ensures IdSet(entries + [e]) == IdSet(entries) + {e.nodeId}
  {
    assert (entries + [e])[..|entries|] == entries;
  }

  lemma SnocBatch(batches: seq<seq<NodeEntry>>, b: seq<NodeEntry>)
    ensures TaggedAll(batches + [b]) == TaggedAll(batches) + Tagged(b)
    ensures AllIds(batches + [b]) == AllIds(batches) + IdSet(b)
    ensures SumVectorCounts(batches + [b]) == SumVectorCounts(batches) + VectorCount(b)
  {
    assert (batches + [b])[..|batches|] == batches;
  }

  lemma SingleEntry(e: NodeEntry)
    ensures Tagged([e]) == Tag(e) && VectorCount([e]) == |e.vectors| && IdSet([e]) == {e.nodeId}
  {
    SnocEntry([], e);
  }

  lemma TagSnoc(nodeId: string, vectors: seq<Vector>, v: Vector)
    ensures Tag(NodeEntry(nodeId, vectors + [v])) == Tag(NodeEntry(nodeId, vectors)) + [NodeVector(nodeId, v)]
  {
  }

  /** The tagged vectors of a map number its vectors. */
  lemma {:induction false} TaggedLength(entries: seq<NodeEntry>)
    ensures |Tagged(entries)| == VectorCount(entries) == |AllVectors(entries)|
    decreases |entries|
  {
    if entries != [] {
      TaggedLength(entries[..|entries| - 1]);
    }
  }

  lemma {:induction false} TaggedAllLength(batches: seq<seq<NodeEntry>>)
    ensures |TaggedAll(batches)| == SumVectorCounts(batches)
    decreases |batches|
  {
    if batches != [] {
      TaggedAllLength(batches[..|batches| - 1]);
      TaggedLength(batches[|batches| - 1]);
    }
  }

  /** A vector map as the store builds it: every entry holds vectors, and no
      id is listed twice (an object has one property per key). */
  predicate Tidy(entries: seq<NodeEntry>) {
    && (forall j :: 0 <= j < |entries| ==> entries[j].vectors != [])
    && NoDuplicates(Ids(entries))
  }

  predicate AllTidy(batches: seq<seq<NodeEntry>>) {
    batches == [] || (AllTidy(batches[..|batches| - 1]) && Tidy(batches[|batches| - 1]))
  }

  lemma TidySnoc(entries: seq<NodeEntry>, e: NodeEntry)
    requires Tidy(entries) && e.vectors != [] && e.nodeId !in IdSet(entries)
    ensures Tidy(entries + [e])
  {
    var es := entries + [e];
    IdsAreIdSet(entries);
    assert Ids(es) == Ids(entries) + [e.nodeId];
    DisjointConcat(Ids(entries), [e.nodeId]);
    forall j | 0 <= j < |es|
      ensures es[j].vectors != []
    {
      if j < |entries| {
        assert es[j] == entries[j];
      }
    }
  }

  lemma AllTidySnoc(batches: seq<seq<NodeEntry>>, b: seq<NodeEntry>)
    requires AllTidy(batches) && Tidy(b)
    ensures AllTidy(batches + [b])
  {
    assert (batches + [b])[..|batches|] == batches;
  }

  /** A node's id is not among the ids of the nodes before it. */
  lemma FreshId(entries: seq<NodeEntry>, n: nat)
    requires n < |entries| && NoDuplicates(Ids(entries))
    ensures entries[n].nodeId !in IdSet(entries[..n])
  {
    forall k | 0 <= k < n
      ensures entries[..n][k].nodeId != entries[n].nodeId
    {
      assert Ids(entries)[k] != Ids(entries)[n];
    }
  }

  // ---------------------------------------------------------------------
  // Batching, as the comments of `buildVectorBatches` describe it.
  // ---------------------------------------------------------------------

  /** The batches closed so far are full, and the open batch holds
      `currentVectorBatchSize` vectors, at most a batch. */
  predicate BatchingState(batches: seq<seq<NodeEntry>>, currentVectorBatch: seq<NodeEntry>,
                          currentVectorBatchSize: nat, batchSize: nat)
  {
    && currentVectorBatchSize == VectorCount(currentVectorBatch) <= batchSize
    && forall i :: 0 <= i < |batches| ==> VectorCount(batches[i]) == batchSize
  }

  lemma TagSplit(nodeId: string, vectors: seq<Vector>, k: nat)
    requires k <= |vectors|
    ensures Tag(NodeEntry(nodeId, vectors[..k])) + Tag(NodeEntry(nodeId, vectors[k..])) == Tag(NodeEntry(nodeId, vectors))
  {
  }

  /** The inner loop of `buildVectorBatches`: the vectors of one node that did
      not fit in the batch just closed go, one at a time, into a fresh batch
      holding only that node; a full batch is closed and another one opened. */
  method SpillVectors(batches: seq<seq<NodeEntry>>, nodeId: string, vectors: seq<Vector>, batchSize: nat)
    returns (batches': seq<seq<NodeEntry>>, currentVectorBatch: seq<NodeEntry>, currentVectorBatchSize: nat)
    requires batchSize >= 1 && BatchingState(batches, [], 0, batchSize)
    ensures BatchingState(batches', currentVectorBatch, currentVectorBatchSize, batchSize)
    ensures TaggedAll(batches') + Tagged(currentVectorBatch) == TaggedAll(batches) + Tag(NodeEntry(nodeId, vectors))
    ensures AllIds(batches') + IdSet(currentVectorBatch) == AllIds(batches) + {nodeId}
    ensures IdSet(currentVectorBatch) == {nodeId}
    ensures AllTidy(batches) && vectors != [] ==> AllTidy(batches') && Tidy(currentVectorBatch)
  {
    batches' := batches;
    // The vectors of the open batch `{ [nodeId]: current }`.
    var current: seq<Vector> := [];
    for j := 0 to |vectors|
      invariant |current| <= batchSize
      invariant forall i :: 0 <= i < |batches'| ==> VectorCount(batches'[i]) == batchSize
      invariant TaggedAll(batches') + Tag(NodeEntry(nodeId, current)) ==
                TaggedAll(batches) + Tag(NodeEntry(nodeId, vectors[..j]))
      invariant AllIds(batches') + {nodeId} == AllIds(batches) + {nodeId}
      invariant AllTidy(batches) ==> AllTidy(batches')
      invariant j > 0 ==> current != []
    {
      if |current| + 1 > batchSize {
        CloseSpilledBatch(batches, batches', nodeId, current, batchSize);
        batches' := batches' + [[NodeEntry(nodeId, current)]];
        current := [];
      }
      SpillNextVector(batches, batches', nodeId, current, vectors, j);
      current := current + [vectors[j]];
    }
    assert vectors[..|vectors|] == vectors;
    currentVectorBatch := [NodeEntry(nodeId, current)];
    currentVectorBatchSize := |current|;
    SingleEntry(NodeEntry(nodeId, current));
    if current != [] {
      TidySnoc([], NodeEntry(nodeId, current));
    }
  }

  /** Moving the next vector of the node into the open batch of the inner
      loop keeps the tagged vectors in step with the node's prefix. */
  lemma SpillNextVector(batches: seq<seq<NodeEntry>>, closed: seq<seq<NodeEntry>>, nodeId: string,
                 current: seq<Vector>, vectors: seq<Vector>, j: nat)
    requires j < |vectors|
    requires TaggedAll(closed) + Tag(NodeEntry(nodeId, current)) ==
             TaggedAll(batches) + Tag(NodeEntry(nodeId, vectors[..j]))
    ensures TaggedAll(closed) + Tag(NodeEntry(nodeId, current + [vectors[j]])) ==
            TaggedAll(batches) + Tag(NodeEntry(nodeId, vectors[..j + 1]))
  {
    var v := vectors[j];
    TagSnoc(nodeId, current, v);
    TagSnoc(nodeId, vectors[..j], v);
    assert vectors[..j + 1] == vectors[..j] + [v];
    SnocBoth(TaggedAll(closed), Tag(NodeEntry(nodeId, current)),
             TaggedAll(batches), Tag(NodeEntry(nodeId, vectors[..j])), NodeVector(nodeId, v));
  }

  /** Closing the full single-node batch of the inner loop keeps every closed
      batch full and tidy, and moves its vectors from the open batch to the
      closed ones. */
  lemma CloseSpilledBatch(batches: seq<seq<NodeEntry>>, closed: seq<seq<NodeEntry>>, nodeId: string,
                          current: seq<Vector>, batchSize: nat)
    requires 1 <= batchSize == |current|
    requires forall i :: 0 <= i < |closed| ==> VectorCount(closed[i]) == batchSize
    requires AllTidy(batches) ==> AllTidy(closed)
    ensures var closed' := closed + [[NodeEntry(nodeId, current)]];
      && (forall i :: 0 <= i < |closed'| ==> VectorCount(closed'[i]) == batchSize)
      && (AllTidy(batches) ==> AllTidy(closed'))
      && TaggedAll(closed') + Tag(NodeEntry(nodeId, [])) == TaggedAll(closed) + Tag(NodeEntry(nodeId, current))
      && AllIds(closed') + {nodeId} == AllIds(closed) + {nodeId}
  {
    CloseSingleNodeBatch(closed, nodeId, current);
    CloseFullBatch(closed, [NodeEntry(nodeId, current)], batchSize);
    if AllTidy(batches) {
      TidySnoc([], NodeEntry(nodeId, current));
      AllTidySnoc(closed, [NodeEntry(nodeId, current)]);
    }
    assert Tag(NodeEntry(nodeId, [])) == [];
  }

  lemma CloseSingleNodeBatch(batches: seq<seq<NodeEntry>>, nodeId: string, vectors: seq<Vector>)
    ensures TaggedAll(batches + [[NodeEntry(nodeId, vectors)]]) == TaggedAll(batches) + Tag(NodeEntry(nodeId, vectors))
    ensures AllIds(batches + [[NodeEntry(nodeId, vectors)]]) == AllIds(batches) + {nodeId}
    ensures VectorCount([NodeEntry(nodeId, vectors)]) == |vectors|
  {
    SingleEntry(NodeEntry(nodeId, vectors));
    SnocBatch(batches, [NodeEntry(nodeId, vectors)]);
  }

  /** One step of the `reduce` of `buildVectorBatches`, for one node. */
  method AddNodeVectors(batches: seq<seq<NodeEntry>>, currentVectorBatch: seq<NodeEntry>,
                        currentVectorBatchSize: nat, entry: NodeEntry, batchSize: nat)
    returns (batches': seq<seq<NodeEntry>>, currentVectorBatch': seq<NodeEntry>, currentVectorBatchSize': nat)
    requires batchSize >= 1 && BatchingState(batches, currentVectorBatch, currentVectorBatchSize, batchSize)
    ensures BatchingState(batches', currentVectorBatch', currentVectorBatchSize', batchSize)
    ensures TaggedAll(batches') + Tagged(currentVectorBatch') ==
            TaggedAll(batches) + Tagged(currentVectorBatch) + Tag(entry)
    ensures AllIds(batches') + IdSet(currentVectorBatch') ==
            AllIds(batches) + IdSet(currentVectorBatch) + {entry.nodeId}
    ensures IdSet(currentVectorBatch') <= IdSet(currentVectorBatch) + {entry.nodeId}
    ensures AllTidy(batches) && Tidy(currentVectorBatch) && entry.vectors != [] &&
              entry.nodeId !in IdSet(currentVectorBatch) ==>
            AllTidy(batches') && Tidy(currentVectorBatch')
  {
    var nodeId, vectors := entry.nodeId, entry.vectors;
    if currentVectorBatchSize + |vectors| <= batchSize {
      // The whole node fits: add it to the current batch.
      assert BatchingState(batches, currentVectorBatch + [entry], currentVectorBatchSize + |vectors|, batchSize)
          && Tagged(currentVectorBatch + [entry]) == Tagged(currentVectorBatch) + Tag(entry)
          && IdSet(currentVectorBatch + [entry]) == IdSet(currentVectorBatch) + {entry.nodeId} by {
        SnocEntry(currentVectorBatch, entry);
      }
      if Tidy(currentVectorBatch) && entry.vectors != [] && entry.nodeId !in IdSet(currentVectorBatch) {
        TidySnoc(currentVectorBatch, entry);
      }
      return batches, currentVectorBatch + [entry], currentVectorBatchSize + |vectors|;
    }
    batches', currentVectorBatch', currentVectorBatchSize' :=
      AddOverflowingNode(batches, currentVectorBatch, currentVectorBatchSize, entry, batchSize);
  }

  /** The branch of `AddNodeVectors` for a node that does not fit in the open
      batch: its first vectors fill that batch, the rest spill into new ones. */
  method AddOverflowingNode(batches: seq<seq<NodeEntry>>, currentVectorBatch: seq<NodeEntry>,
                            currentVectorBatchSize: nat, entry: NodeEntry, batchSize: nat)
    returns (batches': seq<seq<NodeEntry>>, currentVectorBatch': seq<NodeEntry>, currentVectorBatchSize': nat)
    requires batchSize >= 1 && BatchingState(batches, currentVectorBatch, currentVectorBatchSize, batchSize)
    requires currentVectorBatchSize + |entry.vectors| > batchSize
    ensures BatchingState(batches', currentVectorBatch', currentVectorBatchSize', batchSize)
    ensures TaggedAll(batches') + Tagged(currentVectorBatch') ==
            TaggedAll(batches) + Tagged(currentVectorBatch) + Tag(entry)
    ensures AllIds(batches') + IdSet(currentVectorBatch') ==
            AllIds(batches) + IdSet(currentVectorBatch) + {entry.nodeId}
    ensures IdSet(currentVectorBatch') <= {entry.nodeId}
    ensures AllTidy(batches) && Tidy(currentVectorBatch) && entry.vectors != [] &&
              entry.nodeId !in IdSet(currentVectorBatch) ==>
            AllTidy(batches') && Tidy(currentVectorBatch')
  {
    var nodeId, vectors := entry.nodeId, entry.vectors;
    // Fill the current batch with this node's first vectors and close it.
    var currentBatchSpaceRemaining := batchSize - currentVectorBatchSize;
    var filled := currentVectorBatch;
    if currentBatchSpaceRemaining > 0 {
      filled := currentVectorBatch + [NodeEntry(nodeId, vectors[..currentBatchSpaceRemaining])];
    }
    FillAndClose(batches, currentVectorBatch, currentVectorBatchSize, entry, batchSize, filled);
    FilledTidy(batches, currentVectorBatch, entry, currentBatchSpaceRemaining, filled);
    // The rest of the node's vectors start new batches.
    batches', currentVectorBatch', currentVectorBatchSize' :=
      SpillVectors(batches + [filled], nodeId, vectors[currentBatchSpaceRemaining..], batchSize);
  }

  /** The batch filled with a node's first vectors is tidy when the open batch
      was and the node is new to it. */
  lemma FilledTidy(batches: seq<seq<NodeEntry>>, currentVectorBatch: seq<NodeEntry>, entry: NodeEntry,
                   k: nat, filled: seq<NodeEntry>)
    requires k <= |entry.vectors|
    requires filled == if k > 0 then currentVectorBatch + [NodeEntry(entry.nodeId, entry.vectors[..k])]
                       else currentVectorBatch
    ensures AllTidy(batches) && Tidy(currentVectorBatch) && entry.nodeId !in IdSet(currentVectorBatch) ==>
      AllTidy(batches + [filled])
  {
    if AllTidy(batches) && Tidy(currentVectorBatch) && entry.nodeId !in IdSet(currentVectorBatch) {
      if k > 0 {
        TidySnoc(currentVectorBatch, NodeEntry(entry.nodeId, entry.vectors[..k]));
      }
      AllTidySnoc(batches, filled);
    }
  }

  /** Filling the open batch with the first vectors of a node that does not
      fit, and closing it, leaves every closed batch full; the rest of the
      node's vectors are what is still to be placed. */
  lemma FillAndClose(batches: seq<seq<NodeEntry>>, currentVectorBatch: seq<NodeEntry>,
                     currentVectorBatchSize: nat, entry: NodeEntry, batchSize: nat, filled: seq<NodeEntry>)
    requires BatchingState(batches, currentVectorBatch, currentVectorBatchSize, batchSize)
    requires currentVectorBatchSize + |entry.vectors| > batchSize
    requires var k := batchSize - currentVectorBatchSize;
      filled == if k > 0 then currentVectorBatch + [NodeEntry(entry.nodeId, entry.vectors[..k])]
                else currentVectorBatch
    ensures BatchingState(batches + [filled], [], 0, batchSize)
    ensures var rest := entry.vectors[batchSize - currentVectorBatchSize..];
      TaggedAll(batches + [filled]) + Tag(NodeEntry(entry.nodeId, rest)) ==
      TaggedAll(batches) + Tagged(currentVectorBatch) + Tag(entry)
    ensures AllIds(batches + [filled]) + {entry.nodeId} ==
            AllIds(batches) + IdSet(currentVectorBatch) + {entry.nodeId}
  {
    var k := batchSize - currentVectorBatchSize;
    var head := NodeEntry(entry.nodeId, entry.vectors[..k]);
    var rest := NodeEntry(entry.nodeId, entry.vectors[k..]);
    assert && Tagged(filled) == Tagged(currentVectorBatch) + Tag(head)
           && VectorCount(filled) == batchSize
           && IdSet(filled) + {entry.nodeId} == IdSet(currentVectorBatch) + {entry.nodeId} by {
      if k > 0 {
        SnocEntry(currentVectorBatch, head);
      } else {
        assert Tag(head) == [];
      }
    }
    CloseFullBatch(batches, filled, batchSize);
    assert TaggedAll(batches + [filled]) + Tag(rest) ==
           TaggedAll(batches) + Tagged(currentVectorBatch) + Tag(entry) by {
      SnocBatch(batches, filled);
      TagSplit(entry.nodeId, entry.vectors, k);
      Regroup(TaggedAll(batches), Tagged(currentVectorBatch), Tag(head), Tag(rest), Tag(entry));
    }
    assert AllIds(batches + [filled]) + {entry.nodeId} ==
           AllIds(batches) + IdSet(currentVectorBatch) + {entry.nodeId} by {
      SnocBatch(batches, filled);
    }
  }

  /** Closing a full batch keeps every closed batch full, with an empty open batch. */
  lemma CloseFullBatch(batches: seq<seq<NodeEntry>>, filled: seq<NodeEntry>, batchSize: nat)
    requires forall i :: 0 <= i < |batches| ==> VectorCount(batches[i]) == batchSize
    requires VectorCount(filled) == batchSize
    ensures BatchingState(batches + [filled], [], 0, batchSize)
  {
    var b := batches + [filled];
    forall i | 0 <= i < |b|
      ensures VectorCount(b[i]) == batchSize
    {
      if i < |batches| {
        assert b[i] == batches[i];
      }
    }
  }

  lemma SnocBoth<T>(a: seq<T>, b: seq<T>, c: seq<T>, d: seq<T>, x: T)
    requires a + b == c + d
    ensures a + (b + [x]) == c + (d + [x])
  {
    assert a + (b + [x]) == (a + b) + [x];
    assert c + (d + [x]) == (c + d) + [x];
  }

  lemma Regroup<T>(a: seq<T>, b: seq<T>, h: seq<T>, r: seq<T>, e: seq<T>)
    requires h + r == e
    ensures a + (b + h) + r == a + b + e
  {
  }

  /** `buildVectorBatches`, corrected: a node that fits in the current batch
      joins it whole; otherwise the node's first vectors fill the current
      batch, which is closed, and the rest of its vectors fill new batches
      one at a time. The last, partly filled batch is kept too. Every vector
      lands in exactly one batch, in order and with its node; every batch but
      the last holds exactly `batchSize` vectors, and every node appears in
      some batch. */
  method BuildVectorBatches(vectorsByNode: seq<NodeEntry>, batchSize: nat) returns (batches: seq<seq<NodeEntry>>)
    requires batchSize >= 1
    ensures TaggedAll(batches) == Tagged(vectorsByNode)
    ensures forall i :: 0 <= i < |batches| ==> VectorCount(batches[i]) <= batchSize
    ensures forall i :: 0 <= i < |batches| - 1 ==> VectorCount(batches[i]) == batchSize
    ensures AllIds(batches) == IdSet(vectorsByNode)
    ensures Tidy(vectorsByNode) ==> AllTidy(batches)
  {
    var currentVectorBatch: seq<NodeEntry> := [];
    var currentVectorBatchSize := 0;
    batches := [];
    for n := 0 to |vectorsByNode|
      invariant BatchingState(batches, currentVectorBatch, currentVectorBatchSize, batchSize)
      invariant TaggedAll(batches) + Tagged(currentVectorBatch) == Tagged(vectorsByNode[..n])
      invariant AllIds(batches) + IdSet(currentVectorBatch) == IdSet(vectorsByNode[..n])
      invariant Tidy(vectorsByNode) ==> AllTidy(batches) && Tidy(currentVectorBatch)
    {
      assert vectorsByNode[..n + 1] == vectorsByNode[..n] + [vectorsByNode[n]];
      SnocEntry(vectorsByNode[..n], vectorsByNode[n]);
      if Tidy(vectorsByNode) {
        FreshId(vectorsByNode, n);
      }
      batches, currentVectorBatch, currentVectorBatchSize :=
        AddNodeVectors(batches, currentVectorBatch, currentVectorBatchSize, vectorsByNode[n], batchSize);
    }
    assert vectorsByNode[..|vectorsByNode|] == vectorsByNode;
    if currentVectorBatch != [] {
      SnocBatch(batches, currentVectorBatch);
      if Tidy(vectorsByNode) {
        AllTidySnoc(batches, currentVectorBatch);
      }
      batches := batches + [currentVectorBatch];
    } else {
      assert Tagged(currentVectorBatch) == [] && IdSet(currentVectorBatch) == {};
    }
  }

  // ---------------------------------------------------------------------
  // `buildVectorBatches` as written.
  // ---------------------------------------------------------------------

  /** The objects the reduce creates, as a table: `objects[r]` is the content
      of object r, `pushed` the references pushed onto `builtVectorBatches`,
      `current` the reference held by `currentVectorBatch`. Keeping references
      shows the aliasing: a batch pushed at line 85 is the same object that
      line 92 writes into afterwards. */
  datatype AsWrittenState = AsWrittenState(
    objects: seq<seq<NodeEntry>>,
    pushed: seq<nat>,
    current: nat,
    currentVectorBatchSize: int)

  predicate ValidAsWritten(st: AsWrittenState) {
    st.current < |st.objects| && forall i :: 0 <= i < |st.pushed| ==> st.pushed[i] < |st.objects|
  }

  /** `batch[nodeId] = vectors`: replaces the entry of an existing key in
      place, or appends a new key. */
  function SetProperty(batch: seq<NodeEntry>, nodeId: string, vectors: seq<Vector>): seq<NodeEntry> {
    if batch == [] then [NodeEntry(nodeId, vectors)]
    else if batch[0].nodeId == nodeId then [NodeEntry(nodeId, vectors)] + batch[1..]
    else [batch[0]] + SetProperty(batch[1..], nodeId, vectors)
  }

  /** The inner `for…of` loop as written: it pushes a batch when it is full,
      but `currentVectorBatch[nodeId].concat(subVector)` discards its result,
      so only the counter grows. */
  function SpillAsWritten(st: AsWrittenState, nodeId: string, subVectors: seq<Vector>, batchSize: int): (r: AsWrittenState)
    requires ValidAsWritten(st)
    ensures ValidAsWritten(r)
    decreases |subVectors|
  {
    if subVectors == [] then st
    else
      var st1 := if st.currentVectorBatchSize + 1 > batchSize
                 then AsWrittenState(st.objects + [[NodeEntry(nodeId, [])]], st.pushed + [st.current], |st.objects|, 0)
                 else st;
      SpillAsWritten(st1.(currentVectorBatchSize := st1.currentVectorBatchSize + 1), nodeId, subVectors[1..], batchSize)
  }

  /** The reduce callback as written (lines 84-113). */
  function AddNodeAsWritten(st: AsWrittenState, entry: NodeEntry, batchSize: int): (r: AsWrittenState)
    requires ValidAsWritten(st)
    ensures ValidAsWritten(r)
  {
    if st.currentVectorBatchSize + |entry.vectors| <= batchSize then
      // Line 85 pushes the current batch without adding the node to it.
      st.(pushed := st.pushed + [st.current],
          currentVectorBatchSize := st.currentVectorBatchSize + |entry.vectors|)
    else
      // Line 91: the space remaining is computed the wrong way round (never positive).
      var currentBatchSpaceRemaining := st.currentVectorBatchSize - batchSize;
      var objects := st.objects[st.current := SetProperty(st.objects[st.current], entry.nodeId,
                                                           SliceTo(entry.vectors, currentBatchSpaceRemaining))];
      var started := AsWrittenState(objects + [[NodeEntry(entry.nodeId, [])]], st.pushed, |objects|, 0);
      SpillAsWritten(started, entry.nodeId, SliceFrom(entry.vectors, currentBatchSpaceRemaining), batchSize)
  }

  function ReduceAsWritten(st: AsWrittenState, entries: seq<NodeEntry>, batchSize: int): (r: AsWrittenState)
    requires ValidAsWritten(st)
    ensures ValidAsWritten(r)
    decreases |entries|
  {
    if entries == [] then st else ReduceAsWritten(AddNodeAsWritten(st, entries[0], batchSize), entries[1..], batchSize)
  }

  /** `buildVectorBatches` as written: the contents of the pushed objects;
      the last open batch is never pushed. */
  function BuildVectorBatchesAsWritten(vectorsByNode: seq<NodeEntry>, batchSize: int): seq<seq<NodeEntry>> {
    var st := ReduceAsWritten(AsWrittenState([[]], [], 0, 0), vectorsByNode, batchSize);
    seq(|st.pushed|, i requires 0 <= i < |st.pushed| => st.objects[st.pushed[i]])
  }

  /** The overflow branch of the callback, with its let-bound values named. */
  lemma AddNodeOverflow(st: AsWrittenState, entry: NodeEntry, batchSize: int, head: seq<NodeEntry>, spill: seq<Vector>)
    requires ValidAsWritten(st) && st.currentVectorBatchSize + |entry.vectors| > batchSize
    requires head == SetProperty(st.objects[st.current], entry.nodeId,
                                 SliceTo(entry.vectors, st.currentVectorBatchSize - batchSize))
    requires spill == SliceFrom(entry.vectors, st.currentVectorBatchSize - batchSize)
    ensures AddNodeAsWritten(st, entry, batchSize) ==
            SpillAsWritten(AsWrittenState(st.objects[st.current := head] + [[NodeEntry(entry.nodeId, [])]],
                                          st.pushed, |st.objects|, 0), entry.nodeId, spill, batchSize)
  {
  }

  /** One vector spilled into a batch with room for it only raises the counter. */
  lemma SpillOne(st: AsWrittenState, nodeId: string, v: Vector, batchSize: int)
    requires ValidAsWritten(st) && st.currentVectorBatchSize + 1 <= batchSize
    ensures SpillAsWritten(st, nodeId, [v], batchSize) ==
            st.(currentVectorBatchSize := st.currentVectorBatchSize + 1)
  {
    assert [v][1..] == [];
  }

  /** With a batch size of 1, one node with two vectors gives no batch. */
  lemma OneNodeAsWritten(v1: Vector, v2: Vector)
    ensures BuildVectorBatchesAsWritten([NodeEntry("a", [v1, v2])], 1) == []
  {
    var st0 := AsWrittenState([[]], [], 0, 0);
    var e := [v1, v2];
    var r0 := AddNodeAsWritten(st0, NodeEntry("a", e), 1);
    assert r0.pushed == [] by {
      assert SliceTo(e, 0 - 1) == [v1];
      assert SliceFrom(e, 0 - 1) == [v2];
      AddNodeOverflow(st0, NodeEntry("a", e), 1, [NodeEntry("a", [v1])], [v2]);
      var started := AsWrittenState([[NodeEntry("a", [v1])], [NodeEntry("a", [])]], [], 1, 0);
      assert st0.objects[0 := [NodeEntry("a", [v1])]] + [[NodeEntry("a", [])]] == started.objects;
      SpillOne(started, "a", v2, 1);
    }
    assert ReduceAsWritten(st0, [NodeEntry("a", e)], 1) == r0 by {
      assert [NodeEntry("a", e)][1..] == [];
    }
  }

  /** The second node of `TwoNodesAsWritten` overflows the batch of size 1:
      its (empty) head overwrites the batch already pushed, and its vector
      only raises the counter of a fresh batch. */
  lemma SecondNodeAsWritten(v2: Vector)
    ensures AddNodeAsWritten(AsWrittenState([[]], [0], 0, 1), NodeEntry("b", [v2]), 1) ==
            AsWrittenState([[NodeEntry("b", [])], [NodeEntry("b", [])]], [0], 1, 1)
  {
    var st1 := AsWrittenState([[]], [0], 0, 1);
    assert SliceTo([v2], 1 - 1) == [] && SliceFrom([v2], 1 - 1) == [v2];
    AddNodeOverflow(st1, NodeEntry("b", [v2]), 1, [NodeEntry("b", [])], [v2]);
    var started := AsWrittenState([[NodeEntry("b", [])], [NodeEntry("b", [])]], [0], 1, 0);
    assert st1.objects[0 := [NodeEntry("b", [])]] + [[NodeEntry("b", [])]] == started.objects;
    SpillOne(started, "b", v2, 1);
  }

  /** With a batch size of 1, two nodes with one vector each give one batch
      listing the second node with no vectors. */
  lemma TwoNodesAsWritten(v1: Vector, v2: Vector)
    ensures BuildVectorBatchesAsWritten([NodeEntry("a", [v1]), NodeEntry("b", [v2])], 1) == [[NodeEntry("b", [])]]
  {
    var st0 := AsWrittenState([[]], [], 0, 0);
    var st1 := AsWrittenState([[]], [0], 0, 1);
    var st2 := AsWrittenState([[NodeEntry("b", [])], [NodeEntry("b", [])]], [0], 1, 1);
    assert AddNodeAsWritten(st0, NodeEntry("a", [v1]), 1) == st1;
    SecondNodeAsWritten(v2);
    var input := [NodeEntry("a", [v1]), NodeEntry("b", [v2])];
    assert ReduceAsWritten(st0, input, 1) == st2 by {
      assert input[1..] == [NodeEntry("b", [v2])] && input[1..][1..] == [];
      assert ReduceAsWritten(st0, input, 1) == ReduceAsWritten(st1, input[1..], 1);
      assert ReduceAsWritten(st1, input[1..], 1) == ReduceAsWritten(st2, [], 1);
    }
  }

  /** Two inputs on which the code as written loses vectors. With a batch
      size of 1, one node with two vectors gives no batch at all; two nodes
      with one vector each give one batch that lists the second node with no
      vectors. In both cases no vector reaches a batch, where the corrected
      batching keeps every vector (`BuildVectorBatches`). */
  lemma BuildVectorBatchesAsWrittenLosesVectors(v1: Vector, v2: Vector)
    ensures BuildVectorBatchesAsWritten([NodeEntry("a", [v1, v2])], 1) == []
    ensures BuildVectorBatchesAsWritten([NodeEntry("a", [v1]), NodeEntry("b", [v2])], 1) == [[NodeEntry("b", [])]]
    ensures TaggedAll(BuildVectorBatchesAsWritten([NodeEntry("a", [v1]), NodeEntry("b", [v2])], 1)) == []
    ensures |Tagged([NodeEntry("a", [v1]), NodeEntry("b", [v2])])| == 2
  {
    OneNodeAsWritten(v1, v2);
    TwoNodesAsWritten(v1, v2);
    assert TaggedAll([[NodeEntry("b", [])]]) == [] by {
      SingleEntry(NodeEntry("b", []));
      SnocBatch([], [NodeEntry("b", [])]);
    }
    assert |Tagged([NodeEntry("a", [v1]), NodeEntry("b", [v2])])| == 2 by {
      TaggedLength([NodeEntry("a", [v1]), NodeEntry("b", [v2])]);
      SingleEntry(NodeEntry("a", [v1]));
      SnocEntry([NodeEntry("a", [v1])], NodeEntry("b", [v2]));
    }
  }

  // ---------------------------------------------------------------------
  // Upserts and their accounting.
  // ---------------------------------------------------------------------

  /** `singleUpsert`: one request with every vector, in node order; on
      success every node is reported upserted, whatever count Pinecone
      returns, and on failure the error is thrown. */
  function SingleUpsert(vectorsByNode: seq<NodeEntry>, remote: RemoteUpsert): (result: Result<UpsertResults, string>)
    ensures remote(AllVectors(vectorsByNode)).Failure? ==>
      result == Failure(PINECONE_ERROR_PREFIX + remote(AllVectors(vectorsByNode)).error)
    ensures remote(AllVectors(vectorsByNode)).Success? ==>
      && result.Success?
      && result.value.upsertedNodeIds == Ids(vectorsByNode)
      && result.value.upsertedNodeCount == |vectorsByNode|
      && result.value.upsertedVectorCount == VectorCount(vectorsByNode)
      && result.value.upsertedVectorByNode == vectorsByNode
      && result.value.failedNodeCount == 0 && result.value.failedNodeIds == [] && result.value.errors == []
  {
    var builtVectors := AllVectors(vectorsByNode);
    TaggedLength(vectorsByNode);
    match remote(builtVectors)
    case Failure(e) => Failure(PINECONE_ERROR_PREFIX + e)
    case Success(_) =>
      var upsertedNodeIds := Ids(vectorsByNode);
      Success(UpsertResults(|upsertedNodeIds|, upsertedNodeIds, |builtVectors|, vectorsByNode, 0, [], []))
  }

  /** The ids of the nodes of the batches whose request succeeded, batch after batch. */
  function SucceededIds(batches: seq<seq<NodeEntry>>, remote: RemoteUpsert): seq<string> {
    if batches == [] then []
    else
      var last := batches[|batches| - 1];
      SucceededIds(batches[..|batches| - 1], remote) + (if remote(AllVectors(last)).Success? then Ids(last) else [])
  }

  function FailedIds(batches: seq<seq<NodeEntry>>, remote: RemoteUpsert): seq<string> {
    if batches == [] then []
    else
      var last := batches[|batches| - 1];
      FailedIds(batches[..|batches| - 1], remote) + (if remote(AllVectors(last)).Failure? then Ids(last) else [])
  }

  /** One error per node of a failed batch: the batch's error message. */
  function FailedErrors(batches: seq<seq<NodeEntry>>, remote: RemoteUpsert): seq<string> {
    if batches == [] then []
    else
      var last := batches[|batches| - 1];
      var outcome := remote(AllVectors(last));
      FailedErrors(batches[..|batches| - 1], remote) +
        (if outcome.Failure? then seq(|last|, _ => PINECONE_ERROR_PREFIX + outcome.error) else [])
  }

  function SucceededVectorCount(batches: seq<seq<NodeEntry>>, remote: RemoteUpsert): nat {
    if batches == [] then 0
    else
      var last := batches[|batches| - 1];
      SucceededVectorCount(batches[..|batches| - 1], remote) +
        (if remote(AllVectors(last)).Success? then VectorCount(last) else 0)
  }

  /** `upsertedVectorByNode` after `||= []` on each upserted id: one entry per
      distinct id, in first-seen order, each with no vectors (the following
      `concat` discards its result). */
  predicate EmptyEntriesFor(byNode: seq<NodeEntry>, ids: seq<string>) {
    && (forall k :: 0 <= k < |byNode| ==> byNode[k].vectors == [])
    && NoDuplicates(Ids(byNode))
    && IdSet(byNode) == Elements(ids)
  }

  lemma IdsSnoc(entries: seq<NodeEntry>, j: nat)
    requires j < |entries|
    ensures Ids(entries[..j + 1]) == Ids(entries[..j]) + [entries[j].nodeId]
    ensures VectorCount(entries[..j + 1]) == VectorCount(entries[..j]) + |entries[j].vectors|
  {
    assert entries[..j + 1] == entries[..j] + [entries[j]];
    SnocEntry(entries[..j], entries[j]);
  }

  lemma AddEmptyEntry(byNode: seq<NodeEntry>, ids: seq<string>, nodeId: string)
    requires EmptyEntriesFor(byNode, ids)
    ensures var byNode' := if nodeId in IdSet(byNode) then byNode else byNode + [NodeEntry(nodeId, [])];
      EmptyEntriesFor(byNode', ids + [nodeId])
  {
    assert Elements(ids + [nodeId]) == Elements(ids) + {nodeId};
    if nodeId !in IdSet(byNode) {
      var byNode' := byNode + [NodeEntry(nodeId, [])];
      assert IdSet(byNode') == IdSet(byNode) + {nodeId} by {
        SnocEntry(byNode, NodeEntry(nodeId, []));
      }
      assert forall k :: 0 <= k < |byNode'| ==> byNode'[k].vectors == [] by {
        forall k | 0 <= k < |byNode'|
          ensures byNode'[k].vectors == []
        {
          if k < |byNode| {
            assert byNode'[k] == byNode[k];
          }
        }
      }
      assert NoDuplicates(Ids(byNode')) by {
        assert Ids(byNode') == Ids(byNode) + [nodeId];
        IdsAreIdSet(byNode);
        DisjointConcat(Ids(byNode), [nodeId]);
      }
    }
  }

  /** The `then` handler's loop over one successful batch: every node is
      counted as upserted, with its vectors, and gets an empty entry in
      `upsertedVectorByNode`; the failure fields are untouched. */
  method AddSucceededBatch(results: UpsertResults, batch: seq<NodeEntry>) returns (results': UpsertResults)
    requires EmptyEntriesFor(results.upsertedVectorByNode, results.upsertedNodeIds)
    ensures EmptyEntriesFor(results'.upsertedVectorByNode, results'.upsertedNodeIds)
    ensures results'.upsertedNodeCount == results.upsertedNodeCount + |batch|
    ensures results'.upsertedNodeIds == results.upsertedNodeIds + Ids(batch)
    ensures results'.upsertedVectorCount == results.upsertedVectorCount + VectorCount(batch)
    ensures results'.failedNodeCount == results.failedNodeCount
    ensures results'.failedNodeIds == results.failedNodeIds
    ensures results'.errors == results.errors
  {
    var upsertedNodeCount, upsertedNodeIds := results.upsertedNodeCount, results.upsertedNodeIds;
    var upsertedVectorCount, upsertedVectorByNode := results.upsertedVectorCount, results.upsertedVectorByNode;
    for j := 0 to |batch|
      invariant EmptyEntriesFor(upsertedVectorByNode, upsertedNodeIds)
      invariant upsertedNodeCount == results.upsertedNodeCount + j
      invariant upsertedNodeIds == results.upsertedNodeIds + Ids(batch[..j])
      invariant upsertedVectorCount == results.upsertedVectorCount + VectorCount(batch[..j])
    {
      var nodeId, vectors := batch[j].nodeId, batch[j].vectors;
      IdsSnoc(batch, j);
      AddEmptyEntry(upsertedVectorByNode, upsertedNodeIds, nodeId);
      if nodeId !in IdSet(upsertedVectorByNode) {
        upsertedVectorByNode := upsertedVectorByNode + [NodeEntry(nodeId, [])];
      }
      upsertedNodeCount := upsertedNodeCount + 1;
      upsertedNodeIds := upsertedNodeIds + [nodeId];
      upsertedVectorCount := upsertedVectorCount + |vectors|;
    }
    assert batch[..|batch|] == batch;
    results' := results.(upsertedNodeCount := upsertedNodeCount, upsertedNodeIds := upsertedNodeIds,
                         upsertedVectorCount := upsertedVectorCount, upsertedVectorByNode := upsertedVectorByNode);
  }

  /** The `catch` handler's loop over one failed batch: every node is
      counted as failed, with the batch's error once per node; the upsert
      fields are untouched. */
  method AddFailedBatch(results: UpsertResults, batch: seq<NodeEntry>, error: string) returns (results': UpsertResults)
    ensures results'.failedNodeCount == results.failedNodeCount + |batch|
    ensures results'.failedNodeIds == results.failedNodeIds + Ids(batch)
    ensures results'.errors == results.errors + seq(|batch|, _ => error)
    ensures results'.upsertedNodeCount == results.upsertedNodeCount
    ensures results'.upsertedNodeIds == results.upsertedNodeIds
    ensures results'.upsertedVectorCount == results.upsertedVectorCount
    ensures results'.upsertedVectorByNode == results.upsertedVectorByNode
  {
    var failedNodeCount, failedNodeIds, errors := results.failedNodeCount, results.failedNodeIds, results.errors;
    for j := 0 to |batch|
      invariant failedNodeCount == results.failedNodeCount + j
      invariant failedNodeIds == results.failedNodeIds + Ids(batch[..j])
      invariant errors == results.errors + seq(j, _ => error)
    {
      IdsSnoc(batch, j);
      assert seq(j + 1, _ => error) == seq(j, _ => error) + [error];
      failedNodeCount := failedNodeCount + 1;
      failedNodeIds := failedNodeIds + [batch[j].nodeId];
      errors := errors + [error];
    }
    assert batch[..|batch|] == batch;
    results' := results.(failedNodeCount := failedNodeCount, failedNodeIds := failedNodeIds, errors := errors);
  }

  /** The aggregation for one batch: a successful batch goes to the `then`
      handler, a failed one to the `catch` handler with the prefixed error. */
  method AggregateBatch(results: UpsertResults, batch: seq<NodeEntry>, outcome: Result<nat, string>)
    returns (results': UpsertResults)
    requires EmptyEntriesFor(results.upsertedVectorByNode, results.upsertedNodeIds)
    ensures EmptyEntriesFor(results'.upsertedVectorByNode, results'.upsertedNodeIds)
    ensures results'.upsertedNodeCount == results.upsertedNodeCount + (if outcome.Success? then |batch| else 0)
    ensures results'.upsertedNodeIds == results.upsertedNodeIds + (if outcome.Success? then Ids(batch) else [])
    ensures results'.upsertedVectorCount == results.upsertedVectorCount + (if outcome.Success? then VectorCount(batch) else 0)
    ensures results'.failedNodeCount == results.failedNodeCount + (if outcome.Failure? then |batch| else 0)
    ensures results'.failedNodeIds == results.failedNodeIds + (if outcome.Failure? then Ids(batch) else [])
    ensures results'.errors == results.errors +
      (if outcome.Failure? then seq(|batch|, _ => PINECONE_ERROR_PREFIX + outcome.error) else [])
  {
    if outcome.Success? {
      results' := AddSucceededBatch(results, batch);
      assert results'.failedNodeIds == results.failedNodeIds + [];
      assert results'.errors == results.errors + [];
    } else {
      results' := AddFailedBatch(results, batch, PINECONE_ERROR_PREFIX + outcome.error);
      assert results'.upsertedNodeIds == results.upsertedNodeIds + [];
    }
  }

  lemma IdsAreIdSet(entries: seq<NodeEntry>)
    ensures Elements(Ids(entries)) == IdSet(entries)
  {
    forall id | id in IdSet(entries)
      ensures id in Elements(Ids(entries))
    {
      var k :| 0 <= k < |entries| && entries[k].nodeId == id;
      assert Ids(entries)[k] == id;
    }
  }

  /** Every node of every batch is either upserted or failed. */
  lemma {:induction false} AccountingIds(batches: seq<seq<NodeEntry>>, remote: RemoteUpsert)
    ensures Elements(SucceededIds(batches, remote)) + Elements(FailedIds(batches, remote)) == AllIds(batches)
    decreases |batches|
  {
    if batches != [] {
      var init, last := batches[..|batches| - 1], batches[|batches| - 1];
      AccountingIds(init, remote);
      IdsAreIdSet(last);
      if remote(AllVectors(last)).Success? {
        assert Elements(SucceededIds(init, remote) + Ids(last)) ==
               Elements(SucceededIds(init, remote)) + Elements(Ids(last));
        assert FailedIds(batches, remote) == FailedIds(init, remote) + [];
      } else {
        assert Elements(FailedIds(init, remote) + Ids(last)) ==
               Elements(FailedIds(init, remote)) + Elements(Ids(last));
        assert SucceededIds(batches, remote) == SucceededIds(init, remote) + [];
      }
    }
  }

  /** One error is recorded per failed node, and the upserted vectors never
      outnumber the vectors of the batches. */
  lemma {:induction false} AccountingCounts(batches: seq<seq<NodeEntry>>, remote: RemoteUpsert)
    ensures |FailedErrors(batches, remote)| == |FailedIds(batches, remote)|
    ensures SucceededVectorCount(batches, remote) <= SumVectorCounts(batches)
    decreases |batches|
  {
    if batches != [] {
      AccountingCounts(batches[..|batches| - 1], remote);
    }
  }

  /** When every request succeeds, every vector is counted and nothing fails. */
  lemma {:induction false} AccountingAllSucceeded(batches: seq<seq<NodeEntry>>, remote: RemoteUpsert)
    requires forall i :: 0 <= i < |batches| ==> remote(AllVectors(batches[i])).Success?
    ensures SucceededVectorCount(batches, remote) == SumVectorCounts(batches)
    ensures FailedIds(batches, remote) == [] && FailedErrors(batches, remote) == []
    decreases |batches|
  {
    if batches != [] {
      var init := batches[..|batches| - 1];
      assert forall i :: 0 <= i < |init| ==> init[i] == batches[i];
      AccountingAllSucceeded(init, remote);
      assert remote(AllVectors(batches[|batches| - 1])).Success?;
    }
  }

  /** Some of node `id`'s vectors went out in a request for one of `batches`
      whose outcome was `accepted` (a success) or not (a failure). */
  ghost predicate SentIn(batches: seq<seq<NodeEntry>>, remote: RemoteUpsert, id: string, accepted: bool) {
    exists i, j :: 0 <= i < |batches| && 0 <= j < |batches[i]| &&
      batches[i][j].nodeId == id && batches[i][j].vectors != [] &&
      remote(AllVectors(batches[i])).Success? == accepted
  }

  lemma SentInSnoc(batches: seq<seq<NodeEntry>>, remote: RemoteUpsert, id: string, accepted: bool)
    requires batches != [] && Tidy(batches[|batches| - 1])
    ensures var init, last := batches[..|batches| - 1], batches[|batches| - 1];
      SentIn(batches, remote, id, accepted) <==>
      SentIn(init, remote, id, accepted) ||
      (remote(AllVectors(last)).Success? == accepted && id in Ids(last))
  {
    var n := |batches| - 1;
    var init, last := batches[..n], batches[n];
    if SentIn(batches, remote, id, accepted) {
      var i, j :| 0 <= i < |batches| && 0 <= j < |batches[i]| &&
        batches[i][j].nodeId == id && batches[i][j].vectors != [] &&
        remote(AllVectors(batches[i])).Success? == accepted;
      if i < n {
        assert init[i] == batches[i];
      } else {
        assert Ids(last)[j] == id;
      }
    }
    if SentIn(init, remote, id, accepted) {
      var i, j :| 0 <= i < |init| && 0 <= j < |init[i]| &&
        init[i][j].nodeId == id && init[i][j].vectors != [] &&
        remote(AllVectors(init[i])).Success? == accepted;
      assert batches[i] == init[i];
    }
    if remote(AllVectors(last)).Success? == accepted && id in Ids(last) {
      var j :| 0 <= j < |last| && Ids(last)[j] == id;
      assert batches[n][j].nodeId == id;
    }
  }

  /** For tidy batches, a node is listed as upserted exactly when some of
      its vectors went out in a request that succeeded. */
  lemma {:induction false} SucceededIdsSent(batches: seq<seq<NodeEntry>>, remote: RemoteUpsert, id: string)
    requires AllTidy(batches)
    ensures id in SucceededIds(batches, remote) <==> SentIn(batches, remote, id, true)
    decreases |batches|
  {
    if batches != [] {
      var init, last := batches[..|batches| - 1], batches[|batches| - 1];
      SucceededIdsSent(init, remote, id);
      SentInSnoc(batches, remote, id, true);
      assert SucceededIds(batches, remote) ==
        SucceededIds(init, remote) + (if remote(AllVectors(last)).Success? then Ids(last) else []);
    } else {
      assert !SentIn(batches, remote, id, true);
    }
  }

  /** For tidy batches, a node is listed as failed exactly when some of its
      vectors went out in a request that failed. */
  lemma {:induction false} FailedIdsSent(batches: seq<seq<NodeEntry>>, remote: RemoteUpsert, id: string)
    requires AllTidy(batches)
    ensures id in FailedIds(batches, remote) <==> SentIn(batches, remote, id, false)
    decreases |batches|
  {
    if batches != [] {
      var init, last := batches[..|batches| - 1], batches[|batches| - 1];
      FailedIdsSent(init, remote, id);
      SentInSnoc(batches, remote, id, false);
      assert FailedIds(batches, remote) ==
        FailedIds(init, remote) + (if remote(AllVectors(last)).Failure? then Ids(last) else []);
    } else {
      assert !SentIn(batches, remote, id, false);
    }
  }

  /** When every request fails, nothing is upserted and every node fails. */
  lemma {:induction false} AccountingAllFailed(batches: seq<seq<NodeEntry>>, remote: RemoteUpsert)
    requires forall i :: 0 <= i < |batches| ==> remote(AllVectors(batches[i])).Failure?
    ensures SucceededIds(batches, remote) == [] && SucceededVectorCount(batches, remote) == 0
    ensures Elements(FailedIds(batches, remote)) == AllIds(batches)
    decreases |batches|
  {
    if batches != [] {
      var init := batches[..|batches| - 1];
      assert forall i :: 0 <= i < |init| ==> init[i] == batches[i];
      AccountingAllFailed(init, remote);
      assert remote(AllVectors(batches[|batches| - 1])).Failure?;
      AccountingIds(batches, remote);
    }
  }

  /** The aggregation over the batch outcomes accounts for every node and
      every vector once: each node of a batch is either upserted or failed;
      one error is recorded per failed node; no more vectors are counted
      than the batches hold; and when every request succeeds, every vector
      is counted and nothing fails. */
  lemma AccountingFacts(batches: seq<seq<NodeEntry>>, remote: RemoteUpsert)
    ensures Elements(SucceededIds(batches, remote)) + Elements(FailedIds(batches, remote)) == AllIds(batches)
    ensures |FailedErrors(batches, remote)| == |FailedIds(batches, remote)|
    ensures SucceededVectorCount(batches, remote) <= SumVectorCounts(batches)
    ensures (forall i :: 0 <= i < |batches| ==> remote(AllVectors(batches[i])).Success?) ==>
      && SucceededVectorCount(batches, remote) == SumVectorCounts(batches)
      && FailedIds(batches, remote) == [] && FailedErrors(batches, remote) == []
  {
    AccountingIds(batches, remote);
    AccountingCounts(batches, remote);
    if forall i :: 0 <= i < |batches| ==> remote(AllVectors(batches[i])).Success? {
      AccountingAllSucceeded(batches, remote);
    }
  }

  const EMPTY_RESULTS := UpsertResults(0, [], 0, [], 0, [], [])

  /** The `then`/`catch` handlers of `batchUpsert`, run over the outcome of
      every batch request in batch order: the totals are the spec functions
      above. */
  method AggregateBatchUpserts(batches: seq<seq<NodeEntry>>, remote: RemoteUpsert) returns (results: UpsertResults)
    ensures EmptyEntriesFor(results.upsertedVectorByNode, results.upsertedNodeIds)
    ensures results.upsertedNodeIds == SucceededIds(batches, remote)
    ensures results.upsertedNodeCount == |results.upsertedNodeIds|
    ensures results.upsertedVectorCount == SucceededVectorCount(batches, remote)
    ensures results.failedNodeIds == FailedIds(batches, remote)
    ensures results.failedNodeCount == |results.failedNodeIds|
    ensures results.errors == FailedErrors(batches, remote)
  {
    results := EMPTY_RESULTS;
    for i := 0 to |batches|
      invariant EmptyEntriesFor(results.upsertedVectorByNode, results.upsertedNodeIds)
      invariant results.upsertedNodeIds == SucceededIds(batches[..i], remote)
      invariant results.upsertedNodeCount == |results.upsertedNodeIds|
      invariant results.upsertedVectorCount == SucceededVectorCount(batches[..i], remote)
      invariant results.failedNodeIds == FailedIds(batches[..i], remote)
      invariant results.failedNodeCount == |results.failedNodeIds|
      invariant results.errors == FailedErrors(batches[..i], remote)
    {
      assert batches[..i + 1][..i] == batches[..i];
      var outcome := remote(AllVectors(batches[i]));
      results := AggregateBatch(results, batches[i], outcome);
    }
    assert batches[..|batches|] == batches;
  }

  /** The guarantees of `buildVectorBatches`: the batches hold the input's
      vectors in order, none holds more than `batchSize` vectors, all but the
      last are full, every node appears, and a tidy input gives tidy batches
      (no entry without vectors, no id twice in a batch). */
  ghost predicate IsBatching(batches: seq<seq<NodeEntry>>, vectorsByNode: seq<NodeEntry>, batchSize: nat) {
    && TaggedAll(batches) == Tagged(vectorsByNode)
    && (forall i :: 0 <= i < |batches| ==> VectorCount(batches[i]) <= batchSize)
    && (forall i :: 0 <= i < |batches| - 1 ==> VectorCount(batches[i]) == batchSize)
    && AllIds(batches) == IdSet(vectorsByNode)
    && (Tidy(vectorsByNode) ==> AllTidy(batches))
  }

  /** Each node's outcome is that of the requests that carried its vectors:
      it is upserted exactly when one of those requests succeeded, and
      failed exactly when one of them failed. */
  ghost predicate OutcomesFollowRequests(results: UpsertResults, batches: seq<seq<NodeEntry>>, remote: RemoteUpsert) {
    forall id ::
      && (id in results.upsertedNodeIds <==> SentIn(batches, remote, id, true))
      && (id in results.failedNodeIds <==> SentIn(batches, remote, id, false))
  }

  /** The record aggregated over `batches`: the nodes of a batch are upserted
      exactly when that batch's own request succeeds, and failed with its
      error otherwise. */
  ghost predicate AggregatedOver(results: UpsertResults, batches: seq<seq<NodeEntry>>, remote: RemoteUpsert) {
    && results.upsertedNodeIds == SucceededIds(batches, remote)
    && results.upsertedVectorCount == SucceededVectorCount(batches, remote)
    && results.failedNodeIds == FailedIds(batches, remote)
    && results.errors == FailedErrors(batches, remote)
  }

  /** The record is aggregated over some batching of the input, and for a
      tidy input each node's outcome is that of the requests that carried its
      vectors. */
  ghost predicate BatchedFrom(results: UpsertResults, vectorsByNode: seq<NodeEntry>, batchSize: nat, remote: RemoteUpsert) {
    exists batches ::
      && IsBatching(batches, vectorsByNode, batchSize)
      && AggregatedOver(results, batches, remote)
      && (Tidy(vectorsByNode) ==> OutcomesFollowRequests(results, batches, remote))
  }

  /** What `batchUpsert` promises about its record for an input map: it is
      aggregated over some batching of the input, and for a tidy input each
      node's outcome is that of the requests that carried its vectors; the counts are the lengths of the id
      lists, every node is reported as upserted or failed, one error per
      failed node, no more vectors counted than there are; when the index
      accepts every request, every vector and every node is counted as
      upserted and nothing fails; when it rejects every request, nothing is
      upserted and every node fails. */
  ghost predicate BatchResultsFor(results: UpsertResults, vectorsByNode: seq<NodeEntry>, batchSize: nat, remote: RemoteUpsert) {
    && BatchedFrom(results, vectorsByNode, batchSize, remote)
    && results.upsertedNodeCount == |results.upsertedNodeIds|
    && results.failedNodeCount == |results.failedNodeIds| == |results.errors|
    && EmptyEntriesFor(results.upsertedVectorByNode, results.upsertedNodeIds)
    && Elements(results.upsertedNodeIds) + Elements(results.failedNodeIds) == IdSet(vectorsByNode)
    && results.upsertedVectorCount <= VectorCount(vectorsByNode)
    && ((forall vs :: remote(vs).Success?) ==>
          && results.upsertedVectorCount == VectorCount(vectorsByNode)
          && results.failedNodeIds == [] && results.errors == []
          && Elements(results.upsertedNodeIds) == IdSet(vectorsByNode))
    && ((forall vs :: remote(vs).Failure?) ==>
          && results.upsertedNodeIds == [] && results.upsertedVectorCount == 0
          && Elements(results.failedNodeIds) == IdSet(vectorsByNode))
  }

  /** What `execute` returns for a record: the result of the single request
      when the record's total fits in a batch, otherwise a batched result. */
  ghost predicate ExecuteOutcome(result: Result<UpsertResults, string>, record: UpsertVectorsRecord,
                                 batchSize: nat, remote: RemoteUpsert)
  {
    && (record.totalVectorCount <= batchSize ==> result == SingleUpsert(record.vectorsByNode, remote))
    && (record.totalVectorCount > batchSize ==>
          result.Success? && BatchResultsFor(result.value, record.vectorsByNode, batchSize, remote))
  }

  /** `batchUpsert`: builds the batches, sends one request per batch and
      aggregates the outcomes. */
  method BatchUpsert(builtVectors: seq<NodeEntry>, batchSize: nat, remote: RemoteUpsert) returns (results: UpsertResults)
    requires batchSize >= 1
    ensures BatchResultsFor(results, builtVectors, batchSize, remote)
  {
    var vectorBatches := BuildVectorBatches(builtVectors, batchSize);
    results := AggregateBatchUpserts(vectorBatches, remote);
    AggregatedBatchResults(vectorBatches, results, builtVectors, batchSize, remote);
  }

  /** Aggregating the outcomes of a batching of the input gives a record with
      every guarantee of `BatchResultsFor`. */
  lemma AggregatedBatchResults(batches: seq<seq<NodeEntry>>, results: UpsertResults,
                               vectorsByNode: seq<NodeEntry>, batchSize: nat, remote: RemoteUpsert)
    requires IsBatching(batches, vectorsByNode, batchSize) && AggregatedOver(results, batches, remote)
    requires results.upsertedNodeCount == |results.upsertedNodeIds|
    requires results.failedNodeCount == |results.failedNodeIds|
    requires EmptyEntriesFor(results.upsertedVectorByNode, results.upsertedNodeIds)
    ensures BatchResultsFor(results, vectorsByNode, batchSize, remote)
  {
    if Tidy(vectorsByNode) {
      OutcomesOfTidyBatches(batches, results, remote);
    }
    AccountingFacts(batches, remote);
    TaggedAllLength(batches);
    TaggedLength(vectorsByNode);
    if forall vs :: remote(vs).Failure? {
      AccountingAllFailed(batches, remote);
    }
  }

  lemma OutcomesOfTidyBatches(batches: seq<seq<NodeEntry>>, results: UpsertResults, remote: RemoteUpsert)
    requires AllTidy(batches) && AggregatedOver(results, batches, remote)
    ensures OutcomesFollowRequests(results, batches, remote)
  {
    forall id: string
      ensures && (id in results.upsertedNodeIds <==> SentIn(batches, remote, id, true))
              && (id in results.failedNodeIds <==> SentIn(batches, remote, id, false))
    {
      SucceededIdsSent(batches, remote, id);
      FailedIdsSent(batches, remote, id);
    }
  }

  /** A vector of an entry is sent with its map's vectors, tagged with its node. */
  lemma {:induction false} EntryVectorSent(entries: seq<NodeEntry>, j: nat, m: nat)
    requires j < |entries| && m < |entries[j].vectors|
    ensures entries[j].vectors[m] in AllVectors(entries)
    ensures NodeVector(entries[j].nodeId, entries[j].vectors[m]) in Tagged(entries)
    decreases |entries|
  {
    var init, last := entries[..|entries| - 1], entries[|entries| - 1];
    if j < |init| {
      assert init[j] == entries[j];
      EntryVectorSent(init, j, m);
    } else {
      assert Tag(last)[m] == NodeVector(last.nodeId, last.vectors[m]);
    }
  }

  lemma {:induction false} TaggedInAll(batches: seq<seq<NodeEntry>>, i: nat, t: NodeVector)
    requires i < |batches| && t in Tagged(batches[i])
    ensures t in TaggedAll(batches)
    decreases |batches|
  {
    var init := batches[..|batches| - 1];
    if i < |init| {
      assert init[i] == batches[i];
      TaggedInAll(init, i, t);
    }
  }

  /** For a tidy input, the batched upsert lists a node as upserted only if
      one of its vectors went out in a request that succeeded, and as failed
      only if one of its vectors went out in a request that failed. */
  lemma UpsertedNodeWasAccepted(results: UpsertResults, vectorsByNode: seq<NodeEntry>, batchSize: nat,
                                remote: RemoteUpsert, id: string)
    requires BatchedFrom(results, vectorsByNode, batchSize, remote) && Tidy(vectorsByNode)
    ensures id in results.upsertedNodeIds ==>
      exists vs, k :: 0 <= k < |vs| && NodeVector(id, vs[k]) in Tagged(vectorsByNode) && remote(vs).Success?
    ensures id in results.failedNodeIds ==>
      exists vs, k :: 0 <= k < |vs| && NodeVector(id, vs[k]) in Tagged(vectorsByNode) && remote(vs).Failure?
  {
    var batches :| && IsBatching(batches, vectorsByNode, batchSize)
                   && AggregatedOver(results, batches, remote)
                   && (Tidy(vectorsByNode) ==> OutcomesFollowRequests(results, batches, remote));
    if id in results.upsertedNodeIds {
      SentVectorTagged(batches, vectorsByNode, remote, id, true);
    }
    if id in results.failedNodeIds {
      SentVectorTagged(batches, vectorsByNode, remote, id, false);
    }
  }

  lemma SentVectorTagged(batches: seq<seq<NodeEntry>>, vectorsByNode: seq<NodeEntry>, remote: RemoteUpsert,
                         id: string, accepted: bool)
    requires TaggedAll(batches) == Tagged(vectorsByNode) && SentIn(batches, remote, id, accepted)
    ensures exists vs, k ::
      0 <= k < |vs| && NodeVector(id, vs[k]) in Tagged(vectorsByNode) && remote(vs).Success? == accepted
  {
    var i, j :| 0 <= i < |batches| && 0 <= j < |batches[i]| &&
      batches[i][j].nodeId == id && batches[i][j].vectors != [] &&
      remote(AllVectors(batches[i])).Success? == accepted;
    var v := batches[i][j].vectors[0];
    EntryVectorSent(batches[i], j, 0);
    TaggedInAll(batches, i, NodeVector(id, v));
    var vs := AllVectors(batches[i]);
    var k :| 0 <= k < |vs| && vs[k] == v;
    assert NodeVector(id, vs[k]) in Tagged(vectorsByNode);
  }

  /** An index that rejects every request holding the vector `v`. */
  function RejectsVector(v: Vector): RemoteUpsert {
    vs => if v in vs then Failure("down") else Success(|vs|)
  }

  lemma TwoNodesTagged(va: Vector, vb: Vector)
    ensures var input := [NodeEntry("a", [va]), NodeEntry("b", [vb])];
      Tagged(input) == [NodeVector("a", va), NodeVector("b", vb)] && Tidy(input)
  {
    var ea, eb := NodeEntry("a", [va]), NodeEntry("b", [vb]);
    assert Tag(ea) == [NodeVector("a", va)] by {
      assert Tag(ea)[0] == NodeVector("a", va);
    }
    assert Tag(eb) == [NodeVector("b", vb)] by {
      assert Tag(eb)[0] == NodeVector("b", vb);
    }
    SnocEntry([], ea);
    assert [] + [ea] == [ea];
    SnocEntry([ea], eb);
    assert [ea] + [eb] == [ea, eb];
    assert Tidy([ea, eb]) by {
      TidySnoc([], ea);
      TidySnoc([ea], eb);
    }
  }

  /** With nodes `a` and `b` of one vector each, a batch size of 1 and an
      index that rejects every request holding `a`'s vector, `a` is not
      reported as upserted, whatever `b`'s request gives. */
  lemma RejectedNodeNotUpserted(results: UpsertResults, va: Vector, vb: Vector)
    requires BatchResultsFor(results, [NodeEntry("a", [va]), NodeEntry("b", [vb])], 1, RejectsVector(va))
    ensures "a" !in results.upsertedNodeIds
  {
    var input := [NodeEntry("a", [va]), NodeEntry("b", [vb])];
    TwoNodesTagged(va, vb);
    UpsertedNodeWasAccepted(results, input, 1, RejectsVector(va), "a");
    forall vs: seq<Vector>, k | 0 <= k < |vs| && NodeVector("a", vs[k]) in Tagged(input)
      ensures RejectsVector(va)(vs).Failure?
    {
      assert vs[k] == va;
    }
  }

  /** The options of the upserter. */
  datatype PineconeUpsertOptions = PineconeUpsertOptions(batchSize: Option<nat>, includeSparseValues: Option<bool>)

  /** `options.batchSize || DEFAULT_UPSERT_BATCH_SIZE`: a missing or zero batch size falls back to 100. */
  function BatchSizeOf(batchSize: Option<nat>): (r: nat)
    ensures r >= 1
    ensures batchSize.Some? && batchSize.value != 0 ==> r == batchSize.value
    ensures batchSize == None || batchSize == Some(0) ==> r == DEFAULT_UPSERT_BATCH_SIZE
  {
    if batchSize.Some? && batchSize.value != 0 then batchSize.value else DEFAULT_UPSERT_BATCH_SIZE
  }

  class PineconeVectorsUpsert {
    const pineconeIndex: RemoteUpsert
    const batchSize: nat

    constructor(index: RemoteUpsert, options: PineconeUpsertOptions)
      ensures batchSize == BatchSizeOf(options.batchSize) && batchSize >= 1
      ensures pineconeIndex == index
    {
      batchSize := BatchSizeOf(options.batchSize);
      pineconeIndex := index;
    }

    /** `execute`: one request when the vectors fit in a batch, batches otherwise. */
    method Execute(pineconeVectorsByNode: UpsertVectorsRecord) returns (result: Result<UpsertResults, string>)
      requires batchSize >= 1
      ensures ExecuteOutcome(result, pineconeVectorsByNode, batchSize, pineconeIndex)
    {
      if pineconeVectorsByNode.totalVectorCount > batchSize {
        var results := BatchUpsert(pineconeVectorsByNode.vectorsByNode, batchSize, pineconeIndex);
        return Success(results);
      } else {
        return SingleUpsert(pineconeVectorsByNode.vectorsByNode, pineconeIndex);
      }
    }
  }
}
