/** Sparse values and the frequency table both naive sparse-value builders
    compute from an embedding (`buildEmbeddingFrequencies`). */
module SparseValues {
  import opened SeqUtils
  import opened JsSemantics

  /** `{indices, values}` as Pinecone expects them. */
  datatype SparseValues = SparseValues(indices: seq<int>, values: seq<int>)

  /** The frequency table: an object whose keys are the distinct embedding
      values, each mapped to its number of occurrences. `creationOrder` is the
      order in which the keys were added to the object. */
  datatype EmbeddingFrequencies = EmbeddingFrequencies(counts: map<int, nat>, creationOrder: seq<int>)

  /** The distinct values of `e` in order of first occurrence. */
  function FirstSeen(e: seq<int>): seq<int> {
    if e == [] then []
    else if e[|e| - 1] in e[..|e| - 1] then FirstSeen(e[..|e| - 1])
    else FirstSeen(e[..|e| - 1]) + [e[|e| - 1]]
  }

  lemma {:induction false} FirstSeenFacts(e: seq<int>)
    ensures NoDuplicates(FirstSeen(e)) && Elements(FirstSeen(e)) == Elements(e)
    decreases |e|
  {
    if e != [] {
      var init, x := e[..|e| - 1], e[|e| - 1];
      FirstSeenFacts(init);
      assert e == init + [x];
      assert Elements(e) == Elements(init) + {x};
      if x !in init {
        assert x !in Elements(FirstSeen(init));
        DisjointConcat(FirstSeen(init), [x]);
      }
    }
  }

  /** Every distinct value of `e`, mapped to its number of occurrences. */
  function CountsOf(e: seq<int>): (r: map<int, nat>)
    ensures r.Keys == Elements(e)
    ensures forall k :: k in r ==> r[k] >= 1
  {
    map k | k in e :: multiset(e)[k]
  }

  /** The number of occurrences in `e` of each of `keys`, in the order of `keys`. */
  function Occurrences(e: seq<int>, keys: seq<int>): (r: seq<int>)
    ensures |r| == |keys|
    ensures forall i :: 0 <= i < |keys| ==> r[i] == multiset(e)[keys[i]]
  {
    if keys == [] then [] else Occurrences(e, keys[..|keys| - 1]) + [multiset(e)[keys[|keys| - 1]]]
  }

  /** The keys of the frequency table of `e`, in the order `for…in` visits them. */
  function FrequencyKeys(e: seq<int>): seq<int> {
    PropertyOrder(FirstSeen(e))
  }

  /** The keys are exactly the distinct values of `e`, each once; for values
      that are all array indices (in particular token ids), they ascend. */
  lemma FrequencyKeysFacts(e: seq<int>)
    ensures NoDuplicates(FrequencyKeys(e))
    ensures Elements(FrequencyKeys(e)) == Elements(e)
    ensures (forall k :: k in e ==> IsArrayIndex(k)) ==> StrictlyAscending(FrequencyKeys(e))
  {
    FirstSeenFacts(e);
    PropertyOrderFacts(FirstSeen(e));
    assert forall k :: k in FirstSeen(e) ==> k in Elements(e);
  }

  lemma {:induction false} OccurrencesOfEmpty(keys: seq<int>)
    ensures Sum(Occurrences([], keys)) == 0
    decreases |keys|
  {
    if keys != [] {
      OccurrencesOfEmpty(keys[..|keys| - 1]);
    }
  }

  lemma SumSnoc(s: seq<int>, y: int)
    ensures Sum(s + [y]) == Sum(s) + y
  {
    assert (s + [y])[..|s|] == s;
  }

  lemma {:induction false} OccurrencesSnoc(e: seq<int>, x: int, keys: seq<int>)
    ensures Sum(Occurrences(e + [x], keys)) == Sum(Occurrences(e, keys)) + multiset(keys)[x]
    decreases |keys|
  {
    if keys != [] {
      var init, last := keys[..|keys| - 1], keys[|keys| - 1];
      OccurrencesSnoc(e, x, init);
      var bump := if last == x then 1 else 0;
      var a, b := multiset(e + [x])[last], multiset(e)[last];
      assert a == b + bump by {
        assert multiset(e + [x]) == multiset(e) + multiset{x};
      }
      assert multiset(keys)[x] == multiset(init)[x] + bump by {
        assert keys == init + [last];
        assert multiset(keys) == multiset(init) + multiset{last};
      }
      assert Occurrences(e + [x], keys) == Occurrences(e + [x], init) + [a];
      assert Occurrences(e, keys) == Occurrences(e, init) + [b];
      SumSnoc(Occurrences(e + [x], init), a);
      SumSnoc(Occurrences(e, init), b);
    }
  }

  lemma {:induction false} DistinctOccursOnce(keys: seq<int>, x: int)
    requires NoDuplicates(keys) && x in keys
    ensures multiset(keys)[x] == 1
    decreases |keys|
  {
    var init, last := keys[..|keys| - 1], keys[|keys| - 1];
    assert keys == init + [last];
    assert multiset(keys) == multiset(init) + multiset{last};
    if x == last {
      assert x !in init;
    } else {
      DistinctOccursOnce(init, x);
    }
  }

  /** Counting the occurrences of a duplicate-free list of keys that covers
      every value of `e` accounts for every element of `e` exactly once. */
  lemma {:induction false} OccurrencesSum(e: seq<int>, keys: seq<int>)
    requires NoDuplicates(keys) && Elements(e) <= Elements(keys)
    ensures Sum(Occurrences(e, keys)) == |e|
    decreases |e|
  {
    if e == [] {
      OccurrencesOfEmpty(keys);
    } else {
      var init, x := e[..|e| - 1], e[|e| - 1];
      assert e == init + [x];
      assert Elements(init) <= Elements(e);
      OccurrencesSum(init, keys);
      OccurrencesSnoc(init, x, keys);
      assert x in Elements(e);
      DistinctOccursOnce(keys, x);
    }
  }

  lemma CountsOfSnoc(e: seq<int>, x: int)
    ensures CountsOf(e + [x]) ==
            if x in e then CountsOf(e)[x := CountsOf(e)[x] + 1] else CountsOf(e)[x := 1]
  {
    assert multiset(e + [x]) == multiset(e) + multiset{x};
    assert Elements(e + [x]) == Elements(e) + {x};
  }

  /** The `reduce` of `buildEmbeddingFrequencies`: one pass over the embedding,
      creating a key with count 1 for a value not seen before and incrementing
      the count of a value already seen. */
  method BuildEmbeddingFrequencies(embeddings: seq<int>) returns (acc: EmbeddingFrequencies)
    ensures acc.counts == CountsOf(embeddings)
    ensures acc.creationOrder == FirstSeen(embeddings)
  {
    acc := EmbeddingFrequencies(map[], []);
    for i := 0 to |embeddings|
      invariant acc.counts == CountsOf(embeddings[..i])
      invariant acc.creationOrder == FirstSeen(embeddings[..i])
    {
      var embeddingKey := embeddings[i];
      assert embeddings[..i + 1] == embeddings[..i] + [embeddingKey];
      CountsOfSnoc(embeddings[..i], embeddingKey);
      // A stored count is never 0, so `!acc[embeddingKey]` holds exactly when the key is absent.
      if embeddingKey !in acc.counts {
        acc := acc.(counts := acc.counts[embeddingKey := 1],
                    creationOrder := acc.creationOrder + [embeddingKey]);
      } else {
        acc := acc.(counts := acc.counts[embeddingKey := acc.counts[embeddingKey] + 1]);
      }
    }
    assert embeddings[..|embeddings|] == embeddings;
  }
}
