/** The few pieces of JavaScript semantics the adapter relies on:
    dynamically typed values, the order in which an object enumerates its
    integer keys, number-to-string rendering of counters, and the string
    operations `indexOf`, `slice` and `Array.prototype.join`. */
module JsSemantics {
  import opened SeqUtils

  /** A JavaScript value as it can appear in node metadata. */
  datatype JsValue =
    | JsString(str: string)
    | JsNumber(num: int)
    | JsBoolean(boolean: bool)
    | JsNull
    | JsUndefined
    | JsArray(elements: seq<JsValue>)
    | JsObject(properties: map<string, JsValue>)

  /** `typeof value === "object"`: true for objects, arrays and null. */
  predicate TypeofIsObject(v: JsValue) {
    v.JsNull? || v.JsArray? || v.JsObject?
  }

  // ---------------------------------------------------------------------
  // Property enumeration order of an object with numeric keys.
  // A key that is a canonical array index (0 .. 2^32 - 2) is enumerated
  // first, in ascending numeric order; every other key follows, in the
  // order in which it was created.
  // ---------------------------------------------------------------------

  const ARRAY_INDEX_BOUND: int := 0xFFFF_FFFF

  predicate IsArrayIndex(k: int) {
    0 <= k < ARRAY_INDEX_BOUND
  }

  predicate StrictlyAscending(s: seq<int>) {
    forall i, j :: 0 <= i < j < |s| ==> s[i] < s[j]
  }

  function ArrayIndexKeys(keys: seq<int>): seq<int> {
    if keys == [] then []
    else if IsArrayIndex(keys[0]) then [keys[0]] + ArrayIndexKeys(keys[1..])
    else ArrayIndexKeys(keys[1..])
  }

  function OtherKeys(keys: seq<int>): seq<int> {
    if keys == [] then []
    else if IsArrayIndex(keys[0]) then OtherKeys(keys[1..])
    else [keys[0]] + OtherKeys(keys[1..])
  }

  function InsertAscending(x: int, s: seq<int>): seq<int> {
    if s == [] then [x]
    else if x <= s[0] then [x] + s
    else [s[0]] + InsertAscending(x, s[1..])
  }

  function SortAscending(s: seq<int>): seq<int> {
    if s == [] then [] else InsertAscending(s[0], SortAscending(s[1..]))
  }

  /** The order in which `for…in` visits the keys of an object whose keys
      were created in the order `creationOrder`. */
  function PropertyOrder(creationOrder: seq<int>): seq<int> {
    SortAscending(ArrayIndexKeys(creationOrder)) + OtherKeys(creationOrder)
  }

  lemma ConsAscending(x: int, s: seq<int>)
    requires StrictlyAscending(s) && (s != [] ==> x < s[0])
    ensures StrictlyAscending([x] + s)
  {
    var t := [x] + s;
    forall i, j | 0 <= i < j < |t|
      ensures t[i] < t[j]
    {
      assert t[j] == s[j - 1];
      if i == 0 {
        assert s[0] <= s[j - 1];
      } else {
        assert t[i] == s[i - 1];
      }
    }
  }

  lemma {:induction false} InsertAscendingKeepsOrder(x: int, s: seq<int>)
    requires StrictlyAscending(s) && x !in s
    ensures StrictlyAscending(InsertAscending(x, s))
    ensures Elements(InsertAscending(x, s)) == Elements(s) + {x}
    ensures |InsertAscending(x, s)| == |s| + 1
    decreases |s|
  {
    if s == [] {
      assert InsertAscending(x, s) == [x];
    } else if x <= s[0] {
      assert InsertAscending(x, s) == [x] + s;
      ConsAscending(x, s);
      assert Elements([x] + s) == {x} + Elements(s);
    } else {
      var tail := s[1..];
      assert StrictlyAscending(tail);
      InsertAscendingKeepsOrder(x, tail);
      var r := InsertAscending(x, tail);
      assert InsertAscending(x, s) == [s[0]] + r;
      assert r[0] in Elements(tail) + {x};
      if r[0] != x {
        var m :| 0 <= m < |tail| && tail[m] == r[0];
        assert tail[m] == s[m + 1];
      }
      ConsAscending(s[0], r);
      assert Elements(s) == {s[0]} + Elements(tail);
      assert Elements([s[0]] + r) == {s[0]} + Elements(r);
    }
  }

  lemma {:induction false} SortAscendingSorts(s: seq<int>)
    requires NoDuplicates(s)
    ensures StrictlyAscending(SortAscending(s))
    ensures Elements(SortAscending(s)) == Elements(s)
    ensures |SortAscending(s)| == |s|
    decreases |s|
  {
    if s != [] {
      assert NoDuplicates(s[1..]);
      SortAscendingSorts(s[1..]);
      assert s[0] !in s[1..];
      assert s[0] !in Elements(s[1..]);
      assert s[0] !in SortAscending(s[1..]);
      InsertAscendingKeepsOrder(s[0], SortAscending(s[1..]));
      assert Elements(s) == {s[0]} + Elements(s[1..]);
    }
  }

  lemma {:induction false} KeyFilters(keys: seq<int>)
    requires NoDuplicates(keys)
    ensures NoDuplicates(ArrayIndexKeys(keys)) && NoDuplicates(OtherKeys(keys))
    ensures Elements(ArrayIndexKeys(keys)) == set k | k in keys && IsArrayIndex(k)
    ensures Elements(OtherKeys(keys)) == set k | k in keys && !IsArrayIndex(k)
    ensures |ArrayIndexKeys(keys)| + |OtherKeys(keys)| == |keys|
    decreases |keys|
  {
    if keys != [] {
      var t := keys[1..];
      assert NoDuplicates(t);
      KeyFilters(t);
      var x := keys[0];
      assert x !in t;
      assert Elements(keys) == {x} + Elements(t);
      var a, o := ArrayIndexKeys(t), OtherKeys(t);
      assert forall i :: 0 <= i < |a| ==> a[i] in Elements(a);
      assert forall i :: 0 <= i < |o| ==> o[i] in Elements(o);
      if IsArrayIndex(x) {
        assert ArrayIndexKeys(keys) == [x] + a;
        assert Elements([x] + a) == {x} + Elements(a);
        assert (set k | k in keys && IsArrayIndex(k)) == {x} + (set k | k in t && IsArrayIndex(k));
        assert (set k | k in keys && !IsArrayIndex(k)) == (set k | k in t && !IsArrayIndex(k));
      } else {
        assert OtherKeys(keys) == [x] + o;
        assert Elements([x] + o) == {x} + Elements(o);
        assert (set k | k in keys && IsArrayIndex(k)) == (set k | k in t && IsArrayIndex(k));
        assert (set k | k in keys && !IsArrayIndex(k)) == {x} + (set k | k in t && !IsArrayIndex(k));
      }
    }
  }

  lemma {:induction false} NoOtherKeys(keys: seq<int>)
    requires forall k :: k in keys ==> IsArrayIndex(k)
    ensures OtherKeys(keys) == []
    decreases |keys|
  {
    if keys != [] {
      NoOtherKeys(keys[1..]);
    }
  }

  /** Enumerating an object's keys visits each key exactly once; when every
      key is an array index, the keys come out strictly ascending. */
  lemma PropertyOrderFacts(creationOrder: seq<int>)
    requires NoDuplicates(creationOrder)
    ensures NoDuplicates(PropertyOrder(creationOrder))
    ensures Elements(PropertyOrder(creationOrder)) == Elements(creationOrder)
    ensures |PropertyOrder(creationOrder)| == |creationOrder|
    ensures (forall k :: k in creationOrder ==> IsArrayIndex(k)) ==>
              StrictlyAscending(PropertyOrder(creationOrder))
  {
    KeyFilters(creationOrder);
    var a := ArrayIndexKeys(creationOrder);
    var sorted := SortAscending(a);
    var others := OtherKeys(creationOrder);
    SortAscendingSorts(a);
    assert NoDuplicates(sorted);
    DisjointConcat(sorted, others);
    if forall k :: k in creationOrder ==> IsArrayIndex(k) {
      NoOtherKeys(creationOrder);
      assert PropertyOrder(creationOrder) == sorted;
    }
  }

  // ---------------------------------------------------------------------
  // Number rendering: `${n}` for a natural number n.
  // ---------------------------------------------------------------------

  function DigitChar(d: nat): char
    requires d < 10
  {
    (48 + d) as char
  }

  /** Decimal rendering of a natural number, without leading zeros. */
  function NatToString(n: nat): (r: string)
    ensures |r| >= 1
    ensures n >= 10 ==> |r| >= 2
  {
    if n < 10 then [DigitChar(n)] else NatToString(n / 10) + [DigitChar(n % 10)]
  }

  /** Different numbers render differently. */
  lemma {:induction false} NatToStringInjective(a: nat, b: nat)
    requires NatToString(a) == NatToString(b)
    ensures a == b
    decreases a
  {
    var sa, sb := NatToString(a), NatToString(b);
    if a < 10 && b < 10 {
      assert sa[0] == DigitChar(a) && sb[0] == DigitChar(b);
    } else if a >= 10 && b >= 10 {
      assert sa[|sa| - 1] == DigitChar(a % 10);
      assert sb[|sb| - 1] == DigitChar(b % 10);
      assert sa[..|sa| - 1] == NatToString(a / 10);
      assert sb[..|sb| - 1] == NatToString(b / 10);
      NatToStringInjective(a / 10, b / 10);
    }
  }

  // ---------------------------------------------------------------------
  // String operations.
  // ---------------------------------------------------------------------

  /** `s.slice(start)`: a negative start counts from the end of the string. */
  function SliceFrom<T>(s: seq<T>, start: int): (r: seq<T>)
    ensures |r| <= |s| && r == s[|s| - |r|..]
  {
    if start < 0 then
      (if |s| + start <= 0 then s else s[|s| + start..])
    else if start <= |s| then s[start..]
    else []
  }

  /** `s.slice(0, end)`: a negative end counts from the end of the sequence. */
  function SliceTo<T>(s: seq<T>, end: int): (r: seq<T>)
    ensures |r| <= |s| && r == s[..|r|]
  {
    if end < 0 then
      (if |s| + end <= 0 then [] else s[..|s| + end])
    else if end <= |s| then s[..end]
    else s
  }

  predicate OccursAt(s: string, m: string, i: nat) {
    i + |m| <= |s| && s[i..i + |m|] == m
  }

  function IndexOfFrom(s: string, m: string, from: nat): (r: int)
    ensures r == -1 || (from <= r && OccursAt(s, m, r))
    ensures forall j :: from <= j && (r == -1 || j < r) ==> !OccursAt(s, m, j)
    decreases |s| - from
  {
    if from + |m| > |s| then -1
    else if s[from..from + |m|] == m then from
    else IndexOfFrom(s, m, from + 1)
  }

  /** `s.indexOf(m)`: the first position at which m occurs, or -1. */
  function IndexOf(s: string, m: string): (r: int)
    ensures r == -1 <==> forall j: nat :: !OccursAt(s, m, j)
    ensures r != -1 ==> 0 <= r && OccursAt(s, m, r) && forall j: nat :: j < r ==> !OccursAt(s, m, j)
  {
    IndexOfFrom(s, m, 0)
  }

  /** `s.slice(s.indexOf(m))`: from the first occurrence of m on; without
      one, `slice(-1)` keeps the last element. */
  lemma SliceFromIndexOf(s: string, m: string)
    ensures var i, r := IndexOf(s, m), SliceFrom(s, IndexOf(s, m));
      && (i != -1 ==> |s| - |r| == i && OccursAt(r, m, 0))
      && (i == -1 ==> r == if s == [] then [] else [s[|s| - 1]])
  {
    var i := IndexOf(s, m);
    if i != -1 {
      assert s[i..][..|m|] == s[i..i + |m|];
    }
  }

  /** `parts.join(sep)` */
  function Join(parts: seq<string>, sep: string): string {
    if parts == [] then ""
    else if |parts| == 1 then parts[0]
    else Join(parts[..|parts| - 1], sep) + sep + parts[|parts| - 1]
  }

  /** A join starts with its first part, and its length is the parts' total
      length plus one separator between each two neighbouring parts. */
  lemma {:induction false} JoinShape(parts: seq<string>, sep: string)
    requires |parts| >= 1
    ensures |Join(parts, sep)| >= |parts[0]| && Join(parts, sep)[..|parts[0]|] == parts[0]
    ensures |Join(parts, sep)| == SumLengths(parts) + (|parts| - 1) * |sep|
    decreases |parts|
  {
    if |parts| > 1 {
      var init := parts[..|parts| - 1];
      JoinShape(init, sep);
      assert init[0] == parts[0];
      assert SumLengths(parts) == SumLengths(init) + |parts[|parts| - 1]|;
      MulSucc(|parts| - 2, |sep|);
    }
  }

  function SumLengths(parts: seq<string>): nat {
    if parts == [] then 0 else SumLengths(parts[..|parts| - 1]) + |parts[|parts| - 1]|
  }
}
