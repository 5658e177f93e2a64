/** The older `NaiveSparseValueBuilder` (src/embeddings/sparse_values/builders):
    the same frequency table as `NaiveSparseValuesBuilder`, but `build` pushes
    each count onto `indices` and each distinct value onto `values`. */
module NaiveSparseValueBuilder {
  import opened SeqUtils
  import opened JsSemantics
  import opened SparseValues
  import NaiveSparseValuesBuilder

  /** What this `build` returns: the counts as `indices`, the distinct values
      as `values`. */
  function SwappedHistogram(embeddings: seq<int>): SparseValues {
    var keys := FrequencyKeys(embeddings);
    SparseValues(Occurrences(embeddings, keys), keys)
  }

  /** `build`: visits the keys of the frequency table with `for…in`, pushing
      each count onto `indices` and the parsed key onto `values`. */
  method Build(embeddings: seq<int>) returns (sparseValues: SparseValues)
    ensures sparseValues == SwappedHistogram(embeddings)
  {
    var embeddingFrequencies := BuildEmbeddingFrequencies(embeddings);
    var counts := embeddingFrequencies.counts;
    var tokens := PropertyOrder(embeddingFrequencies.creationOrder);
    assert tokens == FrequencyKeys(embeddings);
    var indices, values := [], [];
    for i := 0 to |tokens|
      invariant values == tokens[..i]
      invariant indices == Occurrences(embeddings, tokens[..i])
    {
      var token := tokens[i];
      NaiveSparseValuesBuilder.BuildStep(embeddings, counts, tokens, i);
      indices, values := indices + [counts[token]], values + [token];
    }
    assert tokens[..|tokens|] == tokens;
    sparseValues := SparseValues(indices, values);
  }

  /** The output is the newer builder's histogram with its two arrays
      exchanged: `values` holds each distinct input value once, and
      `indices[i]` is the number of occurrences of `values[i]`. */
  lemma SwappedHistogramFacts(embeddings: seq<int>)
    ensures var h := NaiveSparseValuesBuilder.Histogram(embeddings);
      var s := SwappedHistogram(embeddings);
      && s.indices == h.values && s.values == h.indices
      && |s.indices| == |s.values|
      && NoDuplicates(s.values)
      && Elements(s.values) == Elements(embeddings)
      && (forall i :: 0 <= i < |s.values| ==> s.indices[i] == multiset(embeddings)[s.values[i]])
      && Sum(s.indices) == |embeddings|
  {
    NaiveSparseValuesBuilder.HistogramFacts(embeddings);
  }

  /** On the input of the documentation example the `indices` array repeats
      the count 3, so the result is not a valid sparse vector, whose indices
      must be distinct; the newer builder's result for the same input has
      distinct indices. */
  lemma SwappedIndicesRepeat()
    ensures SwappedHistogram([1, 2, 3, 2, 3, 1, 5, 3, 1]) == SparseValues([3, 2, 3, 1], [1, 2, 3, 5])
    ensures !NoDuplicates(SwappedHistogram([1, 2, 3, 2, 3, 1, 5, 3, 1]).indices)
    ensures NoDuplicates(NaiveSparseValuesBuilder.Histogram([1, 2, 3, 2, 3, 1, 5, 3, 1]).indices)
  {
    var e := [1, 2, 3, 2, 3, 1, 5, 3, 1];
    NaiveSparseValuesBuilder.HistogramExample();
    var h := NaiveSparseValuesBuilder.Histogram(e);
    assert h.indices == [1, 2, 3, 5] && h.values == [3, 2, 3, 1];
    var s := SwappedHistogram(e);
    assert s == SparseValues(h.values, h.indices);
    assert s.indices[0] == s.indices[2];
    assert NoDuplicates(h.indices) by {
      NaiveSparseValuesBuilder.HistogramFacts(e);
    }
  }
}
