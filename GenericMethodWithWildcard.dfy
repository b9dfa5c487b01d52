/**
  The generic helper methods of the wildcard lesson: `identity`,
  `countGreaterThan`, `exchange` (with its capture helper), `transform` and
  `filter`. The read-only helpers work on the list's contents as a `seq`;
  `exchange` overwrites slots of caller-owned lists in place.
*/
module GenericMethodWithWildcard {
  import opened JavaRuntime
  import opened JavaCollections

  /** `identity(t)`: hands back the very argument it was given. */
  function Identity<T>(t: T): (r: T)
    ensures r == t
  {
    t
  }

  // ---------------------------------------------------------------------------
  // countGreaterThan

  /** How many items of `s` compare above `element` under `compare` (a `compareTo`). */
  function CountAbove<T>(s: seq<T>, element: T, compare: (T, T) -> int): (n: nat)
    ensures n <= |s|
  {
    if s == [] then 0
    else CountAbove(s[..|s| - 1], element, compare) + (if compare(s[|s| - 1], element) > 0 then 1 else 0)
  }

  /** `countGreaterThan(list, element)`: one pass, counting items with `item.compareTo(element) > 0`. */
  method CountGreaterThan<T>(list: seq<T>, element: T, compare: (T, T) -> int) returns (count: int)
    ensures count == CountAbove(list, element, compare)
    ensures 0 <= count <= |list|
  {
    count := 0;
    for i := 0 to |list|
      invariant count == CountAbove(list[..i], element, compare)
    {
      assert list[..i + 1][..i] == list[..i];
      if compare(list[i], element) > 0 {
        count := count + 1;
      }
    }
    assert list[..|list|] == list;
  }

  /** The count is the size of the sublist of the items that compare above `element`. */
  lemma {:induction false} CountAboveIsFilteredLength<T>(s: seq<T>, element: T, compare: (T, T) -> int, above: T -> bool)
    requires forall x :: above(x) == (compare(x, element) > 0)
    ensures CountAbove(s, element, compare) == |Filtered(s, above)|
  {
    if s != [] {
      CountAboveIsFilteredLength(s[..|s| - 1], element, compare, above);
    }
  }

  /** On Integers the count is exactly the number of items strictly greater; equal items are not counted. */
  lemma IntegerCountIsStrictlyGreater(s: seq<int32>, element: int32)
    ensures CountAbove(s, element, IntegerCompare) == |Filtered(s, (x: int32) => x > element)|
    ensures CountAbove(s + [element], element, IntegerCompare) == CountAbove(s, element, IntegerCompare)
  {
    CountAboveIsFilteredLength(s, element, IntegerCompare, (x: int32) => x > element);
    assert (s + [element])[..|s|] == s;
  }

  /** Counting one more item adds one exactly when that item compares above `element`. */
  lemma CountAboveSnoc<T>(s: seq<T>, x: T, element: T, compare: (T, T) -> int)
    ensures CountAbove(s + [x], element, compare) ==
            CountAbove(s, element, compare) + (if compare(x, element) > 0 then 1 else 0)
  {
    assert (s + [x])[..|s|] == s;
  }

  /** `countGreaterThan(Arrays.asList(1, 2, 3, 4, 5), 3)`. */
  method CountGreaterThanDemo() returns (n: int)
    ensures n == 2
  {
    var integers: seq<int32> := [1, 2, 3, 4, 5];
    CountAboveSnoc([], 1, 3, IntegerCompare);
    CountAboveSnoc([1], 2, 3, IntegerCompare);
    CountAboveSnoc([1, 2], 3, 3, IntegerCompare);
    CountAboveSnoc([1, 2, 3], 4, 3, IntegerCompare);
    CountAboveSnoc([1, 2, 3, 4], 5, 3, IntegerCompare);
    assert [1] == [] + [1] && [1, 2] == [1] + [2] && [1, 2, 3] == [1, 2] + [3];
    assert [1, 2, 3, 4] == [1, 2, 3] + [4] && integers == [1, 2, 3, 4] + [5];
    n := CountGreaterThan(integers, 3, IntegerCompare);
  }

  // ---------------------------------------------------------------------------
  // exchange / exchangeHelper

  /** Two distinct lists after `list1[pos1]` and `list2[pos2]` trade places. */
  function Exchanged<T>(s1: seq<T>, s2: seq<T>, pos1: int, pos2: int): (r: (seq<T>, seq<T>))
    requires 0 <= pos1 < |s1| && 0 <= pos2 < |s2|
    ensures |r.0| == |s1| && |r.1| == |s2|
    ensures r.0[pos1] == s2[pos2] && r.1[pos2] == s1[pos1]
    ensures forall i :: 0 <= i < |s1| && i != pos1 ==> r.0[i] == s1[i]
    ensures forall i :: 0 <= i < |s2| && i != pos2 ==> r.1[i] == s2[i]
  {
    (s1[pos1 := s2[pos2]], s2[pos2 := s1[pos1]])
  }

  /** One list passed as both arguments: both reads happen before either write, so this is a swap. */
  function Swapped<T>(s: seq<T>, pos1: int, pos2: int): (r: seq<T>)
    requires 0 <= pos1 < |s| && 0 <= pos2 < |s|
    ensures |r| == |s|
    ensures r[pos1] == s[pos2] && r[pos2] == s[pos1]
    ensures forall i :: 0 <= i < |s| && i != pos1 && i != pos2 ==> r[i] == s[i]
    ensures multiset(r) == multiset(s)
  {
    s[pos1 := s[pos2]][pos2 := s[pos1]]
  }

  /** Exchanging the same two positions twice gives back both original lists. */
  lemma ExchangeTwiceRestores<T>(s1: seq<T>, s2: seq<T>, pos1: int, pos2: int)
    requires 0 <= pos1 < |s1| && 0 <= pos2 < |s2|
    ensures var once := Exchanged(s1, s2, pos1, pos2);
            Exchanged(once.0, once.1, pos1, pos2) == (s1, s2)
  {
    var once := Exchanged(s1, s2, pos1, pos2);
    var twice := Exchanged(once.0, once.1, pos1, pos2);
    assert twice.0 == s1;
    assert twice.1 == s2;
  }

  /** Within one list, swapping the same two positions twice gives back the original list. */
  lemma SwapTwiceRestores<T>(s: seq<T>, pos1: int, pos2: int)
    requires 0 <= pos1 < |s| && 0 <= pos2 < |s|
    ensures Swapped(Swapped(s, pos1, pos2), pos1, pos2) == s
  {
  }

  /**
    `exchange(list1, list2, pos1, pos2)`, which forwards to `exchangeHelper`:
    read `list1.get(pos1)`, then `list2.get(pos2)`, then `set` both. An
    index out of range throws at one of the reads, before anything is written.
  */
  method Exchange(list1: ArrayList, list2: ArrayList, pos1: int, pos2: int) returns (outcome: Outcome)
    modifies list1, list2
    ensures outcome == if 0 <= pos1 < |old(list1.elems)| && 0 <= pos2 < |old(list2.elems)|
                       then Normal else Threw(IndexOutOfBoundsException)
    ensures outcome.Threw? ==> list1.elems == old(list1.elems) && list2.elems == old(list2.elems)
    ensures outcome.Normal? && list1 != list2 ==>
              (list1.elems, list2.elems) == Exchanged(old(list1.elems), old(list2.elems), pos1, pos2)
    ensures outcome.Normal? && list1 == list2 ==> list1.elems == Swapped(old(list1.elems), pos1, pos2)
    ensures list1.modCount == old(list1.modCount) && list2.modCount == old(list2.modCount)
  {
    var temp1 := list1.Get(pos1);
    if temp1.Err? {
      return Threw(temp1.ex);
    }
    var temp2 := list2.Get(pos2);
    if temp2.Err? {
      return Threw(temp2.ex);
    }
    var _ := list1.Set(pos1, temp2.value);
    var _ := list2.Set(pos2, temp1.value);
    outcome := Normal;
  }

  /** `exchange([1, 2], [3, 4], 0, 0)` on two ArrayLists. */
  method ExchangeDemo() returns (after1: seq<JValue>, after2: seq<JValue>)
    ensures after1 == [Int(3), Int(2)] && after2 == [Int(1), Int(4)]
  {
    var list1 := new ArrayList.Of([Int(1), Int(2)]);
    var list2 := new ArrayList.Of([Int(3), Int(4)]);
    var outcome := Exchange(list1, list2, 0, 0);
    after1, after2 := list1.elems, list2.elems;
  }

  // ---------------------------------------------------------------------------
  // transform

  /** `s` with `f` applied to each element. */
  function Mapped<T, R>(s: seq<T>, f: T -> R): (r: seq<R>)
    ensures |r| == |s|
  {
    if s == [] then [] else Mapped(s[..|s| - 1], f) + [f(s[|s| - 1])]
  }

  /** Element `i` of the result is `f` of element `i` of the input. */
  lemma {:induction false} MappedAt<T, R>(s: seq<T>, f: T -> R, i: int)
    requires 0 <= i < |s|
    ensures Mapped(s, f)[i] == f(s[i])
  {
    if i < |s| - 1 {
      MappedAt(s[..|s| - 1], f, i);
    }
  }

  /** Transforming by `identity` gives back an equal list. */
  lemma {:induction false} MappedIdentity<T>(s: seq<T>)
    ensures Mapped(s, Identity<T>) == s
  {
    if s != [] {
      MappedIdentity(s[..|s| - 1]);
    }
  }

  /** `transform(list, function)`: a fresh list of `function.apply` of each element, in order. */
  method Transform<T, R>(list: seq<T>, f: T -> R) returns (result: seq<R>)
    ensures |result| == |list|
    ensures forall i :: 0 <= i < |list| ==> result[i] == f(list[i])
    ensures result == Mapped(list, f)
  {
    result := [];
    for i := 0 to |list|
      invariant result == Mapped(list[..i], f)
    {
      assert list[..i + 1][..i] == list[..i];
      result := result + [f(list[i])];
    }
    assert list[..|list|] == list;
    forall i | 0 <= i < |list|
      ensures result[i] == f(list[i])
    {
      MappedAt(list, f, i);
    }
  }

  /** `transform(Arrays.asList("Alice", "Bob", "Charlie"), String::length)`. */
  method TransformDemo() returns (lengths: seq<int>)
    ensures lengths == [5, 3, 7]
  {
    lengths := Transform(["Alice", "Bob", "Charlie"], (s: string) => |s|);
  }

  // ---------------------------------------------------------------------------
  // filter

  /** The elements of `s` that satisfy `p`, in their original order. */
  function Filtered<T>(s: seq<T>, p: T -> bool): (r: seq<T>)
    ensures |r| <= |s|
  {
    if s == [] then []
    else Filtered(s[..|s| - 1], p) + (if p(s[|s| - 1]) then [s[|s| - 1]] else [])
  }

  /** The positions of `s` that `Filtered` keeps. */
  function KeptIndices<T>(s: seq<T>, p: T -> bool): seq<int> {
    if s == [] then []
    else KeptIndices(s[..|s| - 1], p) + (if p(s[|s| - 1]) then [|s| - 1] else [])
  }

  /** Exactly the satisfying elements, each as often as in the input. */
  lemma {:induction false} FilteredCounts<T>(s: seq<T>, p: T -> bool)
    ensures forall x :: multiset(Filtered(s, p))[x] == if p(x) then multiset(s)[x] else 0
  {
    if s != [] {
      FilteredCounts(s[..|s| - 1], p);
      assert s == s[..|s| - 1] + [s[|s| - 1]];
    }
  }

  /**
    The result is an order-preserving subsequence: its k-th element is the
    input's element at the k-th kept position, the kept positions increase,
    and they are exactly the positions whose element satisfies `p`.
  */
  lemma {:induction false} FilteredInOrder<T>(s: seq<T>, p: T -> bool)
    ensures |KeptIndices(s, p)| == |Filtered(s, p)|
    ensures forall k :: 0 <= k < |KeptIndices(s, p)| ==>
              0 <= KeptIndices(s, p)[k] < |s| && Filtered(s, p)[k] == s[KeptIndices(s, p)[k]]
    ensures forall k, k' :: 0 <= k < k' < |KeptIndices(s, p)| ==> KeptIndices(s, p)[k] < KeptIndices(s, p)[k']
    ensures forall i :: 0 <= i < |s| ==> (i in KeptIndices(s, p) <==> p(s[i]))
  {
    if s != [] {
      var n := |s| - 1;
      var s' := s[..n];
      FilteredInOrder(s', p);
      var ix, ix' := KeptIndices(s, p), KeptIndices(s', p);
      assert forall k :: 0 <= k < |ix'| ==> ix[k] == ix'[k] && Filtered(s, p)[k] == Filtered(s', p)[k];
      assert forall i :: 0 <= i < n ==> s[i] == s'[i];
      forall i | 0 <= i < |s|
        ensures i in ix <==> p(s[i])
      {
        if i < n {
          assert i in ix <==> i in ix';
        }
      }
    }
  }

  /** A list whose elements all satisfy the predicate comes back unchanged. */
  lemma {:induction false} FilteredKeepsAll<T>(s: seq<T>, p: T -> bool)
    requires forall i :: 0 <= i < |s| ==> p(s[i])
    ensures Filtered(s, p) == s
  {
    if s != [] {
      FilteredKeepsAll(s[..|s| - 1], p);
    }
  }

  /** Every element of the result satisfies the predicate. */
  lemma FilteredAllSatisfy<T>(s: seq<T>, p: T -> bool)
    ensures forall i :: 0 <= i < |Filtered(s, p)| ==> p(Filtered(s, p)[i])
  {
    var r := Filtered(s, p);
    forall i | 0 <= i < |r|
      ensures p(r[i])
    {
      FilteredCounts(s, p);
      assert r[i] in multiset(r);
      assert multiset(r)[r[i]] > 0;
    }
  }

  /** Filtering a filtered list again with the same predicate changes nothing. */
  lemma FilteredIdempotent<T>(s: seq<T>, p: T -> bool)
    ensures Filtered(Filtered(s, p), p) == Filtered(s, p)
  {
    FilteredAllSatisfy(s, p);
    FilteredKeepsAll(Filtered(s, p), p);
  }

  /** `filter(list, predicate)`: a fresh list of the elements passing `predicate.test`, in order. */
  method Filter<T>(list: seq<T>, test: T -> bool) returns (result: seq<T>)
    ensures result == Filtered(list, test)
    ensures forall x :: multiset(result)[x] == if test(x) then multiset(list)[x] else 0
  {
    result := [];
    for i := 0 to |list|
      invariant result == Filtered(list[..i], test)
    {
      assert list[..i + 1][..i] == list[..i];
      if test(list[i]) {
        result := result + [list[i]];
      }
    }
    assert list[..|list|] == list;
    FilteredCounts(list, test);
  }

  /** Filtering a list with one more element at the end, one step at a time. */
  lemma FilteredSnoc<T>(s: seq<T>, x: T, p: T -> bool)
    ensures Filtered(s + [x], p) == Filtered(s, p) + (if p(x) then [x] else [])
  {
    assert (s + [x])[..|s|] == s;
  }

  /**
    The lambda `n -> n % 2 == 0`, with Java's remainder: for a negative odd
    `n` it is -1, not 1, and the test still means "divisible by 2".
  */
  function IsEven(n: int32): (r: bool)
    ensures r <==> (n as int) % 2 == 0
  {
    JavaRem(n, 2) == 0
  }

  /** The even numbers among 1 to 10. */
  lemma EvensUpToTen()
    ensures Filtered([1, 2, 3, 4, 5, 6, 7, 8, 9, 10], IsEven) == [2, 4, 6, 8, 10]
  {
    var s: seq<int32> := [];
    var evens: seq<int32> := [];
    FilteredSnoc(s, 1, IsEven);
    s := s + [1];
    FilteredSnoc(s, 2, IsEven);
    s, evens := s + [2], evens + [2];
    FilteredSnoc(s, 3, IsEven);
    s := s + [3];
    FilteredSnoc(s, 4, IsEven);
    s, evens := s + [4], evens + [4];
    FilteredSnoc(s, 5, IsEven);
    s := s + [5];
    FilteredSnoc(s, 6, IsEven);
    s, evens := s + [6], evens + [6];
    FilteredSnoc(s, 7, IsEven);
    s := s + [7];
    FilteredSnoc(s, 8, IsEven);
    s, evens := s + [8], evens + [8];
    FilteredSnoc(s, 9, IsEven);
    s := s + [9];
    FilteredSnoc(s, 10, IsEven);
    s, evens := s + [10], evens + [10];
    assert s == [1, 2, 3, 4, 5, 6, 7, 8, 9, 10];
    assert evens == [2, 4, 6, 8, 10];
  }

  /** `filter(Arrays.asList(1, ..., 10), n -> n % 2 == 0)`; `n % 2 == 0` means the same under Java's `%`. */
  method FilterDemo() returns (evenNumbers: seq<int32>)
    ensures evenNumbers == [2, 4, 6, 8, 10]
  {
    var numbers: seq<int32> := [1, 2, 3, 4, 5, 6, 7, 8, 9, 10];
    EvensUpToTen();
    evenNumbers := Filter(numbers, IsEven);
  }
}
