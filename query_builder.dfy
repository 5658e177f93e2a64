/** `PineconeQueryBuilder`: validates query options, translates llamaindex
    metadata filters into Pinecone filters, and assembles the query request
    from a whitelist of optional properties. */
module QueryBuilder {
  import opened Wrappers
  import opened JsSemantics

  /** Sparse values of a query, with real-valued weights. */
  datatype SparseVector = SparseVector(indices: seq<int>, values: seq<real>)

  /** One llamaindex exact-match filter. */
  datatype MetadataFilter = MetadataFilter(key: string, value: JsValue)

  /** `PineconeMetadataFilterKey.EqualTo`, the only operator the builder emits. */
  const EQUAL_TO := "$eq"

  type PineconeMetadataFilters = map<string, map<string, JsValue>>

  datatype PineconeQueryBuilderOptions = PineconeQueryBuilderOptions(
    topK: int,
    namespace: Option<string>,
    id: Option<string>,
    vector: Option<seq<real>>,
    sparseVector: Option<SparseVector>,
    includeValues: Option<bool>,
    includeMetadata: Option<bool>,
    alpha: Option<real>,
    filters: Option<seq<MetadataFilter>>)

  /** The builder's fields once the constructor has run; nothing changes them afterwards. */
  datatype PineconeQueryBuilder = PineconeQueryBuilder(
    namespace: Option<string>,
    topK: int,
    includeValues: bool,
    includeMetadata: bool,
    sparseVector: Option<SparseVector>,
    vector: Option<seq<real>>,
    filters: PineconeMetadataFilters,
    alpha: Option<real>,
    id: Option<string>)

  /** The request sent to Pinecone; an absent optional key is `None`. */
  datatype QueryRequest = QueryRequest(
    topK: int,
    includeValues: bool,
    includeMetadata: bool,
    namespace: Option<string>,
    vector: Option<seq<real>>,
    id: Option<string>,
    sparseVector: Option<SparseVector>)

  // JavaScript truthiness of the optional fields: a string is truthy when it
  // is not empty, an array or object whenever it is defined, a number when it
  // is not 0.
  predicate StringTruthy(s: Option<string>) { s.Some? && s.value != "" }
  predicate AlphaTruthy(alpha: Option<real>) { alpha.Some? && alpha.value != 0.0 }

  const ID_OR_VECTOR_REQUIRED := "One of `id` or `vector` are required."
  const ONLY_ONE_OF_ID_AND_VECTOR := "Only one of `id` and `vector` are allowed."

  /** No filter after the i-th, among the first n, has the same key. */
  predicate LastWithKey(filters: seq<MetadataFilter>, i: nat, n: nat)
    requires i < n <= |filters|
  {
    forall j :: i < j < n ==> filters[j].key != filters[i].key
  }

  /** `buildPineconeFilters`: each filter becomes `key: {"$eq": value}`,
      written in order, so a later filter on the same key replaces an earlier one. */
  method BuildPineconeFilters(filters: seq<MetadataFilter>) returns (pineconeFilter: PineconeMetadataFilters)
    ensures pineconeFilter.Keys == set i | 0 <= i < |filters| :: filters[i].key
    ensures forall i :: 0 <= i < |filters| && LastWithKey(filters, i, |filters|) ==>
              pineconeFilter[filters[i].key] == map[EQUAL_TO := filters[i].value]
  {
    pineconeFilter := map[];
    for n := 0 to |filters|
      invariant pineconeFilter.Keys == set i | 0 <= i < n :: filters[i].key
      invariant forall i :: 0 <= i < n && LastWithKey(filters, i, n) ==>
                  pineconeFilter[filters[i].key] == map[EQUAL_TO := filters[i].value]
    {
      var filter := filters[n];
      pineconeFilter := pineconeFilter[filter.key := map[EQUAL_TO := filter.value]];
    }
  }

  /** The constructor: exactly one of `id` and `vector` must be truthy;
      `includeValues` and `includeMetadata` default to true and are replaced
      only by a defined option; filters are translated when given. */
  method NewPineconeQueryBuilder(options: PineconeQueryBuilderOptions)
    returns (result: Result<PineconeQueryBuilder, string>)
    ensures !StringTruthy(options.id) && options.vector.None? ==> result == Failure(ID_OR_VECTOR_REQUIRED)
    ensures StringTruthy(options.id) && options.vector.Some? ==> result == Failure(ONLY_ONE_OF_ID_AND_VECTOR)
    ensures result.Success? <==> (StringTruthy(options.id) != options.vector.Some?)
    ensures result.Success? ==>
      var b := result.value;
      && b.topK == options.topK && b.id == options.id && b.vector == options.vector
      && b.namespace == options.namespace && b.sparseVector == options.sparseVector
      && b.alpha == options.alpha
      && b.includeValues == (options.includeValues != Some(false))
      && b.includeMetadata == (options.includeMetadata != Some(false))
      && (options.filters.None? ==> b.filters == map[])
      && (options.filters.Some? ==>
            && b.filters.Keys == (set i | 0 <= i < |options.filters.value| :: options.filters.value[i].key)
            && forall i :: 0 <= i < |options.filters.value| && LastWithKey(options.filters.value, i, |options.filters.value|) ==>
                 b.filters[options.filters.value[i].key] == map[EQUAL_TO := options.filters.value[i].value])
  {
    if !StringTruthy(options.id) && options.vector.None? {
      return Failure(ID_OR_VECTOR_REQUIRED);
    } else if StringTruthy(options.id) && options.vector.Some? {
      return Failure(ONLY_ONE_OF_ID_AND_VECTOR);
    }
    var filters: PineconeMetadataFilters := map[];
    if options.filters.Some? {
      filters := BuildPineconeFilters(options.filters.value);
    }
    var includeMetadata := true;
    if options.includeMetadata.Some? {
      includeMetadata := options.includeMetadata.value;
    }
    var includeValues := true;
    if options.includeValues.Some? {
      includeValues := options.includeValues.value;
    }
    return Success(PineconeQueryBuilder(options.namespace, options.topK, includeValues, includeMetadata,
                                        options.sparseVector, options.vector, filters, options.alpha, options.id));
  }

  /** The request `toQueryRequest` starts from. */
  function InitialRequest(b: PineconeQueryBuilder): QueryRequest {
    QueryRequest(b.topK, b.includeValues, b.includeMetadata, None, None, None, None)
  }

  function ScaleDense(values: seq<real>, factor: real): (r: seq<real>)
    ensures |r| == |values|
  {
    seq(|values|, i requires 0 <= i < |values| => values[i] * factor)
  }

  /** `processVector`: with a vector and a non-zero alpha, maps the REQUEST's
      `vector` (not the builder's) through the scaling; the request has no
      vector yet at either call, so the key ends up undefined. */
  function ProcessVector(b: PineconeQueryBuilder, request: QueryRequest): QueryRequest {
    if b.vector.Some? && AlphaTruthy(b.alpha) then
      request.(vector := if request.vector.Some? then Some(ScaleDense(request.vector.value, b.alpha.value)) else None)
    else request
  }

  /** `buildSparseValues`: with a sparse vector and a non-zero alpha, sets the
      request's sparse vector to the builder's, its weights scaled by 1 - alpha. */
  function BuildSparseValues(b: PineconeQueryBuilder, request: QueryRequest): QueryRequest {
    if b.sparseVector.Some? && AlphaTruthy(b.alpha) then
      request.(sparseVector := Some(SparseVector(b.sparseVector.value.indices,
                                                 ScaleDense(b.sparseVector.value.values, 1.0 - b.alpha.value))))
    else request
  }

  /** The keys of `OPTIONAL_QUERY_REQUEST_PROPERTIES`. */
  datatype OptionalProperty = NamespaceKey | VectorKey | IdKey | SparseVectorKey

  const OPTIONAL_QUERY_REQUEST_PROPERTIES: seq<OptionalProperty> :=
    [NamespaceKey, VectorKey, IdKey, SparseVectorKey]

  /** One step of the whitelist `reduce`: copy the builder's property onto the
      request when it is truthy. */
  function AddOptionalValue(b: PineconeQueryBuilder, request: QueryRequest, key: OptionalProperty): QueryRequest {
    match key
    case NamespaceKey => if StringTruthy(b.namespace) then request.(namespace := b.namespace) else request
    case VectorKey => if b.vector.Some? then request.(vector := b.vector) else request
    case IdKey => if StringTruthy(b.id) then request.(id := b.id) else request
    case SparseVectorKey => if b.sparseVector.Some? then request.(sparseVector := b.sparseVector) else request
  }

  function AddOptionalValues(b: PineconeQueryBuilder, request: QueryRequest, keys: seq<OptionalProperty>): QueryRequest {
    if keys == [] then request
    else AddOptionalValue(b, AddOptionalValues(b, request, keys[..|keys| - 1]), keys[|keys| - 1])
  }

  /** The whitelisted properties of the builder, each present exactly when
      it is truthy, laid over a request. */
  function WithOptionalValues(b: PineconeQueryBuilder, request: QueryRequest): QueryRequest {
    request.(
      namespace := if StringTruthy(b.namespace) then b.namespace else request.namespace,
      vector := if b.vector.Some? then b.vector else request.vector,
      id := if StringTruthy(b.id) then b.id else request.id,
      sparseVector := if b.sparseVector.Some? then b.sparseVector else request.sparseVector)
  }

  /** `addOptionalQueryRequestValues`: runs `processVector` again when there is
      a vector, then folds over the whitelist. Keys outside the whitelist
      (`filters`, `alpha`) never reach the request. */
  method AddOptionalQueryRequestValues(b: PineconeQueryBuilder, queryRequest: QueryRequest)
    returns (result: QueryRequest)
    ensures result == WithOptionalValues(b, if b.vector.Some? then ProcessVector(b, queryRequest) else queryRequest)
  {
    var start := if b.vector.Some? then ProcessVector(b, queryRequest) else queryRequest;
    result := start;
    for i := 0 to |OPTIONAL_QUERY_REQUEST_PROPERTIES|
      invariant result == AddOptionalValues(b, start, OPTIONAL_QUERY_REQUEST_PROPERTIES[..i])
    {
      var key := OPTIONAL_QUERY_REQUEST_PROPERTIES[i];
      assert OPTIONAL_QUERY_REQUEST_PROPERTIES[..i + 1][..i] == OPTIONAL_QUERY_REQUEST_PROPERTIES[..i];
      result := AddOptionalValue(b, result, key);
    }
    assert OPTIONAL_QUERY_REQUEST_PROPERTIES[..4] == OPTIONAL_QUERY_REQUEST_PROPERTIES;
    WhitelistFold(b, start);
  }

  /** Folding over the whitelist sets each of its four properties when truthy. */
  lemma WhitelistFold(b: PineconeQueryBuilder, request: QueryRequest)
    ensures AddOptionalValues(b, request, OPTIONAL_QUERY_REQUEST_PROPERTIES) == WithOptionalValues(b, request)
  {
    var keys := OPTIONAL_QUERY_REQUEST_PROPERTIES;
    assert keys[..1][..0] == [];
    var r1 := AddOptionalValue(b, request, NamespaceKey);
    assert AddOptionalValues(b, request, keys[..1]) == r1;
    assert keys[..2][..1] == keys[..1];
    var r2 := AddOptionalValue(b, r1, VectorKey);
    assert AddOptionalValues(b, request, keys[..2]) == r2;
    assert keys[..3][..2] == keys[..2];
    var r3 := AddOptionalValue(b, r2, IdKey);
    assert AddOptionalValues(b, request, keys[..3]) == r3;
    assert keys[..|keys| - 1] == keys[..3];
  }

  /** What `toQueryRequest` computes, step by step. */
  function QueryRequestOf(b: PineconeQueryBuilder): QueryRequest {
    WithOptionalValues(b, var r := BuildSparseValues(b, ProcessVector(b, InitialRequest(b)));
                          if b.vector.Some? then ProcessVector(b, r) else r)
  }

  /** The request carries `topK`, `includeValues` and `includeMetadata`, and
      the four whitelisted properties exactly when they are truthy. The
      vector and the sparse vector are the builder's own, unscaled: alpha has
      no effect on the request. */
  lemma QueryRequestIgnoresAlpha(b: PineconeQueryBuilder)
    ensures QueryRequestOf(b) == QueryRequest(
      b.topK, b.includeValues, b.includeMetadata,
      if StringTruthy(b.namespace) then b.namespace else None,
      b.vector,
      if StringTruthy(b.id) then b.id else None,
      b.sparseVector)
    ensures forall alpha: Option<real> :: QueryRequestOf(b.(alpha := alpha)) == QueryRequestOf(b)
  {
  }

  /** `toQueryRequest`; the builder is a value, so its fields are unchanged.
      The request holds the builder's fields as given, whatever alpha is. */
  method ToQueryRequest(b: PineconeQueryBuilder) returns (request: QueryRequest)
    ensures request == QueryRequestOf(b)
    ensures request == QueryRequest(
      b.topK, b.includeValues, b.includeMetadata,
      if StringTruthy(b.namespace) then b.namespace else None,
      b.vector,
      if StringTruthy(b.id) then b.id else None,
      b.sparseVector)
  {
    QueryRequestIgnoresAlpha(b);
    request := InitialRequest(b);
    request := ProcessVector(b, request);
    request := BuildSparseValues(b, request);
    request := AddOptionalQueryRequestValues(b, request);
  }
}
