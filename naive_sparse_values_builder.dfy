/** `NaiveSparseValuesBuilder` (src/vectors/sparse_values): a histogram of an
    embedding, with the distinct values as `indices` and their counts as `values`. */
module NaiveSparseValuesBuilder {
  import opened SeqUtils
  import opened JsSemantics
  import opened SparseValues

  /** What `build` returns: the keys of the frequency table in enumeration
      order as `indices`, and the count of each as `values`. */
  function Histogram(embeddings: seq<int>): SparseValues {
    var keys := FrequencyKeys(embeddings);
    SparseValues(keys, Occurrences(embeddings, keys))
  }

  /** `build`: builds the frequency table, then visits its keys with `for…in`,
      pushing each key onto `indices` and its count onto `values`. */
  method Build(embeddings: seq<int>) returns (sparseValues: SparseValues)
    ensures sparseValues == Histogram(embeddings)
  {
    var embeddingFrequencies := BuildEmbeddingFrequencies(embeddings);
    var counts := embeddingFrequencies.counts;
    var tokens := PropertyOrder(embeddingFrequencies.creationOrder);
    assert tokens == FrequencyKeys(embeddings);
    var indices, values := [], [];
    for i := 0 to |tokens|
      invariant indices == tokens[..i]
      invariant values == Occurrences(embeddings, tokens[..i])
    {
      var token := tokens[i];
      BuildStep(embeddings, counts, tokens, i);
      indices, values := indices + [token], values + [counts[token]];
    }
    assert tokens[..|tokens|] == tokens;
    sparseValues := SparseValues(indices, values);
  }

  /** One turn of the `for…in` loop: the key is in the table, and pushing
      its count extends the occurrences of the keys visited so far. */
  lemma BuildStep(e: seq<int>, counts: map<int, nat>, tokens: seq<int>, i: nat)
    requires counts == CountsOf(e) && tokens == FrequencyKeys(e) && i < |tokens|
    ensures tokens[..i + 1] == tokens[..i] + [tokens[i]]
    ensures tokens[i] in counts
    ensures Occurrences(e, tokens[..i + 1]) == Occurrences(e, tokens[..i]) + [counts[tokens[i]]]
  {
    KeyCount(e, tokens[i]);
    OccurrencesStep(e, tokens, i);
  }

  lemma KeyCount(e: seq<int>, t: int)
    requires t in FrequencyKeys(e)
    ensures t in CountsOf(e) && CountsOf(e)[t] == multiset(e)[t]
  {
    FrequencyKeysFacts(e);
    assert t in Elements(FrequencyKeys(e));
  }

  lemma OccurrencesStep(e: seq<int>, keys: seq<int>, i: nat)
    requires i < |keys|
    ensures Occurrences(e, keys[..i + 1]) == Occurrences(e, keys[..i]) + [multiset(e)[keys[i]]]
  {
    assert keys[..i + 1][..i] == keys[..i];
  }

  /** The histogram's guarantees: `indices` and `values` have equal length;
      `indices` holds each distinct input value exactly once; `values[i]`
      counts the occurrences of `indices[i]`, so every count is at least 1 and
      the counts add up to the input length; for token ids (array-index
      values) the indices ascend; an empty input gives empty arrays. */
  lemma HistogramFacts(embeddings: seq<int>)
    ensures var h := Histogram(embeddings);
      && |h.indices| == |h.values|
      && NoDuplicates(h.indices)
      && Elements(h.indices) == Elements(embeddings)
      && (forall i :: 0 <= i < |h.indices| ==>
            h.values[i] == multiset(embeddings)[h.indices[i]] && h.values[i] >= 1)
      && Sum(h.values) == |embeddings|
      && ((forall k :: k in embeddings ==> IsArrayIndex(k)) ==> StrictlyAscending(h.indices))
      && (embeddings == [] ==> h == SparseValues([], []))
  {
    var keys := FrequencyKeys(embeddings);
    FrequencyKeysFacts(embeddings);
    OccurrencesSum(embeddings, keys);
    forall i | 0 <= i < |keys|
      ensures multiset(embeddings)[keys[i]] >= 1
    {
      assert keys[i] in Elements(keys);
    }
    if embeddings == [] {
      assert FirstSeen(embeddings) == [];
      assert keys == SortAscending(ArrayIndexKeys([])) + OtherKeys([]) == [];
    }
  }

  lemma FirstSeenExample()
    ensures FirstSeen([1, 2, 3, 2, 3, 1, 5, 3, 1]) == [1, 2, 3, 5]
  {
    var e := [1, 2, 3, 2, 3, 1, 5, 3, 1];
    assert e[..1][..0] == [];
    assert FirstSeen(e[..1]) == [1];
    assert e[..2][..1] == e[..1];
    assert FirstSeen(e[..2]) == [1, 2];
    assert e[..3][..2] == e[..2];
    assert FirstSeen(e[..3]) == [1, 2, 3];
    assert e[..4][..3] == e[..3];
    assert FirstSeen(e[..4]) == [1, 2, 3];
    assert e[..5][..4] == e[..4];
    assert FirstSeen(e[..5]) == [1, 2, 3];
    assert e[..6][..5] == e[..5];
    assert FirstSeen(e[..6]) == [1, 2, 3];
    assert e[..7][..6] == e[..6];
    assert FirstSeen(e[..7]) == [1, 2, 3, 5];
    assert e[..8][..7] == e[..7];
    assert FirstSeen(e[..8]) == [1, 2, 3, 5];
    assert e[..8] == e[..|e| - 1];
  }

  lemma PropertyOrderExample()
    ensures PropertyOrder([1, 2, 3, 5]) == [1, 2, 3, 5]
  {
    NoOtherKeys([1, 2, 3, 5]);
    assert ArrayIndexKeys([1, 2, 3, 5]) == [1, 2, 3, 5] by {
      assert [1, 2, 3, 5][1..] == [2, 3, 5];
      assert [2, 3, 5][1..] == [3, 5];
      assert [3, 5][1..] == [5];
    }
    assert SortAscending([5]) == [5];
    assert SortAscending([3, 5]) == [3, 5];
    assert SortAscending([2, 3, 5]) == [2, 3, 5];
  }

  lemma ExampleCounts()
    ensures var m := multiset([1, 2, 3, 2, 3, 1, 5, 3, 1]);
      m[1] == 3 && m[2] == 2 && m[3] == 3 && m[5] == 1
  {
    var m := multiset([1, 2, 3, 2, 3, 1, 5, 3, 1]);
    assert m[1] == 3;
    assert m[2] == 2;
    assert m[3] == 3;
    assert m[5] == 1;
  }

  /** The worked example of the builder's documentation and tests. */
  lemma HistogramExample()
    ensures Histogram([1, 2, 3, 2, 3, 1, 5, 3, 1]) == SparseValues([1, 2, 3, 5], [3, 2, 3, 1])
  {
    var e := [1, 2, 3, 2, 3, 1, 5, 3, 1];
    FirstSeenExample();
    PropertyOrderExample();
    ExampleCounts();
    var keys := FrequencyKeys(e);
    assert keys == [1, 2, 3, 5];
    var occ := Occurrences(e, keys);
    assert |occ| == 4;
    assert occ[0] == 3 && occ[1] == 2 && occ[2] == 3 && occ[3] == 1;
    assert occ == [3, 2, 3, 1];
  }
}
