/**
  The PECS lesson ("producer extends, consumer super"): three helpers that
  copy a source list into a destination list with a for-each loop, and the
  age comparator used to sort `Person`s.

  After erasure the three copy helpers differ only in the cast the compiler
  inserts on each element the loop reads: `Number` for `copyFromSource` and
  `copyNumbers`, `Integer` for `copyToDestination`. The wildcards guarantee
  the casts pass for lists built by checked code; the model also covers raw
  lists holding something else, where the loop stops with a
  ClassCastException, and copying a list into itself, where the fail-fast
  iterator throws a ConcurrentModificationException.
*/
module PecsRule {
  import opened JavaRuntime
  import opened JavaCollections

  // ---------------------------------------------------------------------------
  // The copy loop, specified on values

  /**
    Copying the contents `src` of one list onto the end of another list
    holding `dst`, casting each element to `cls`: the elements up to the first
    one whose cast fails are appended, and that cast ends the loop with a
    ClassCastException.
  */
  function Copied(src: seq<JValue>, dst: seq<JValue>, cls: JClass): (r: (seq<JValue>, Outcome))
  {
    var k := PrefixWhile(src, CastTest(cls));
    (dst + src[..k], if k == |src| then Normal else Threw(ClassCastException))
  }

  /**
    Copying a list holding `s` into itself: an empty list is left alone; a
    first element whose cast fails throws before anything is added; otherwise
    the first element is appended, and that structural change makes the
    iterator's next step throw.
  */
  function SelfCopied(s: seq<JValue>, cls: JClass): (r: (seq<JValue>, Outcome))
  {
    if s == [] then (s, Normal)
    else if !CastSucceeds(cls, s[0]) then (s, Threw(ClassCastException))
    else (s + [s[0]], Threw(ConcurrentModificationException))
  }

  /**
    `for (E e : source) destination.add(e);` where the element type erases to
    `cls`. The iterator remembers `modCount` when it is created and checks it
    before each element it hands out. The loop is one and the same whether or
    not the two lists are one object; the proof takes the two heap shapes
    apart, in `ForEachAddDistinct` and `ForEachAddSelf`.
  */
  method ForEachAdd(source: ArrayList, destination: ArrayList, cls: JClass) returns (outcome: Outcome)
    modifies destination
    ensures source != destination ==>
      (destination.elems, outcome) == Copied(old(source.elems), old(destination.elems), cls)
    ensures source == destination ==>
      (destination.elems, outcome) == SelfCopied(old(source.elems), cls)
    ensures source != destination ==> source.elems == old(source.elems) && source.modCount == old(source.modCount)
    ensures destination.modCount == old(destination.modCount) + |destination.elems| - |old(destination.elems)|
  {
    if source == destination {
      outcome := ForEachAddSelf(destination, cls);
    } else {
      outcome := ForEachAddDistinct(source, destination, cls);
    }
  }

  /** The copy loop over two different lists: the source is never modified, so its iterator never trips. */
  method ForEachAddDistinct(source: ArrayList, destination: ArrayList, cls: JClass) returns (outcome: Outcome)
    requires source != destination
    modifies destination
    ensures (destination.elems, outcome) == Copied(old(source.elems), old(destination.elems), cls)
    ensures destination.modCount == old(destination.modCount) + |destination.elems| - |old(destination.elems)|
  {
    ghost var dst, dstModCount := destination.elems, destination.modCount;
    var expectedModCount := source.modCount;
    var cursor := 0;
    while cursor != |source.elems|
      invariant cursor <= PrefixWhile(source.elems, CastTest(cls))
      invariant destination.elems == dst + source.elems[..cursor]
      invariant destination.modCount == dstModCount + cursor
      invariant source.modCount == expectedModCount
      decreases |source.elems| - cursor
    {
      if source.modCount != expectedModCount {
        return Threw(ConcurrentModificationException);
      }
      var element := CheckCast(cls, source.elems[cursor]);
      if element.Err? {
        PrefixWhileStopsAtBound(source.elems, CastTest(cls), cursor);
        return Threw(element.ex);
      }
      assert CastTest(cls)(source.elems[cursor]);
      PrefixWhileExtends(source.elems, CastTest(cls), cursor);
      assert source.elems[..cursor + 1] == source.elems[..cursor] + [source.elems[cursor]];
      cursor := cursor + 1;
      var _ := destination.Add(element.value);
    }
    assert source.elems[..cursor] == source.elems;
    return Normal;
  }

  /**
    The copy loop over one list: the first `add` bumps `modCount`, so the
    iterator throws as it moves to the second element.
  */
  method ForEachAddSelf(list: ArrayList, cls: JClass) returns (outcome: Outcome)
    modifies list
    ensures (list.elems, outcome) == SelfCopied(old(list.elems), cls)
    ensures list.modCount == old(list.modCount) + |list.elems| - |old(list.elems)|
  {
    ghost var s := list.elems;
    var expectedModCount := list.modCount;
    var cursor := 0;
    while cursor != |list.elems|
      invariant cursor <= 1 && cursor <= |s|
      invariant list.elems == s + s[..cursor]
      invariant list.modCount == expectedModCount + cursor
      invariant cursor == 1 ==> CastSucceeds(cls, s[0])
      decreases 1 - cursor
    {
      if list.modCount != expectedModCount {
        assert s[..1] == [s[0]];
        return Threw(ConcurrentModificationException);
      }
      var element := CheckCast(cls, list.elems[cursor]);
      if element.Err? {
        return Threw(element.ex);
      }
      cursor := cursor + 1;
      var _ := list.Add(element.value);
    }
    return Normal;
  }

  /** `copyFromSource(List<? extends Number> source, List<Number> destination)`. */
  method CopyFromSource(source: ArrayList, destination: ArrayList) returns (outcome: Outcome)
    modifies destination
    ensures source != destination ==>
      (destination.elems, outcome) == Copied(old(source.elems), old(destination.elems), NumberClass)
    ensures source == destination ==>
      (destination.elems, outcome) == SelfCopied(old(source.elems), NumberClass)
    ensures source != destination ==> source.elems == old(source.elems) && source.modCount == old(source.modCount)
    ensures destination.modCount == old(destination.modCount) + |destination.elems| - |old(destination.elems)|
  {
    outcome := ForEachAdd(source, destination, NumberClass);
  }

  /** `copyToDestination(List<Integer> source, List<? super Integer> destination)`. */
  method CopyToDestination(source: ArrayList, destination: ArrayList) returns (outcome: Outcome)
    modifies destination
    ensures source != destination ==>
      (destination.elems, outcome) == Copied(old(source.elems), old(destination.elems), IntegerClass)
    ensures source == destination ==>
      (destination.elems, outcome) == SelfCopied(old(source.elems), IntegerClass)
    ensures source != destination ==> source.elems == old(source.elems) && source.modCount == old(source.modCount)
    ensures destination.modCount == old(destination.modCount) + |destination.elems| - |old(destination.elems)|
  {
    outcome := ForEachAdd(source, destination, IntegerClass);
  }

  /** `copyNumbers(List<? extends Number> source, List<? super Number> destination)`. */
  method CopyNumbers(source: ArrayList, destination: ArrayList) returns (outcome: Outcome)
    modifies destination
    ensures source != destination ==>
      (destination.elems, outcome) == Copied(old(source.elems), old(destination.elems), NumberClass)
    ensures source == destination ==>
      (destination.elems, outcome) == SelfCopied(old(source.elems), NumberClass)
    ensures source != destination ==> source.elems == old(source.elems) && source.modCount == old(source.modCount)
    ensures destination.modCount == old(destination.modCount) + |destination.elems| - |old(destination.elems)|
  {
    outcome := ForEachAdd(source, destination, NumberClass);
  }

  // ---------------------------------------------------------------------------
  // What the copies promise

  /**
    When every element's cast passes (as the wildcard bounds guarantee for
    checked code) the copy completes and appends the whole source, in order;
    conversely a completed copy means every cast passed.
  */
  lemma CopiedAllIffCastable(src: seq<JValue>, dst: seq<JValue>, cls: JClass)
    ensures Copied(src, dst, cls).1 == Normal <==> forall i :: 0 <= i < |src| ==> CastSucceeds(cls, src[i])
    ensures Copied(src, dst, cls).1 == Normal ==> Copied(src, dst, cls).0 == dst + src
  {
    var k := PrefixWhile(src, CastTest(cls));
    if k < |src| {
      assert !CastTest(cls)(src[k]);
    } else {
      assert src[..k] == src;
    }
  }

  /** A failed copy leaves behind exactly the elements before the first bad cast, and names a ClassCastException. */
  lemma CopiedStopsAtFirstBadCast(src: seq<JValue>, dst: seq<JValue>, cls: JClass, j: nat)
    requires j < |src| && !CastSucceeds(cls, src[j])
    requires forall i :: 0 <= i < j ==> CastSucceeds(cls, src[i])
    ensures Copied(src, dst, cls) == (dst + src[..j], Threw(ClassCastException))
  {
  }

  /** Copying an empty source changes nothing. */
  lemma CopiedEmptySource(dst: seq<JValue>, cls: JClass)
    ensures Copied([], dst, cls) == (dst, Normal)
  {
    assert dst + [] == dst;
  }

  /** Whatever the outcome, the destination keeps its old contents as a prefix and grows by at most the source's length. */
  lemma CopiedOnlyAppends(src: seq<JValue>, dst: seq<JValue>, cls: JClass)
    ensures |dst| <= |Copied(src, dst, cls).0| <= |dst| + |src|
    ensures Copied(src, dst, cls).0[..|dst|] == dst
  {
  }

  /** Every element a race-free copy to `cls` writes is null or an instance of `cls`. */
  lemma CopiedAddsOnlyInstances(src: seq<JValue>, dst: seq<JValue>, cls: JClass)
    ensures forall i :: |dst| <= i < |Copied(src, dst, cls).0| ==> CastSucceeds(cls, Copied(src, dst, cls).0[i])
  {
    var k := PrefixWhile(src, CastTest(cls));
    forall i | |dst| <= i < |dst| + k
      ensures CastSucceeds(cls, (dst + src[..k])[i])
    {
      assert (dst + src[..k])[i] == src[i - |dst|];
      assert CastTest(cls)(src[i - |dst|]);
    }
  }

  /** Two successive copies into the same destination append both sources in call order. */
  lemma SuccessiveCopiesConcatenate(a: seq<JValue>, b: seq<JValue>, dst: seq<JValue>, cls: JClass)
    requires forall i :: 0 <= i < |a| ==> CastSucceeds(cls, a[i])
    requires forall i :: 0 <= i < |b| ==> CastSucceeds(cls, b[i])
    ensures Copied(b, Copied(a, dst, cls).0, cls) == (dst + a + b, Normal)
  {
    CopiedAllIffCastable(a, dst, cls);
    CopiedAllIffCastable(b, dst + a, cls);
  }

  /** Integers and Doubles pass the cast to Number; Integers pass the cast to Object. */
  lemma NumbersCastToNumber(v: JValue)
    ensures (v.Int? || v.Dbl? || v.OtherNum?) ==> CastSucceeds(NumberClass, v)
    ensures v.Int? ==> CastSucceeds(ObjectClass, v)
    ensures v.Dbl? ==> !CastSucceeds(IntegerClass, v)
  {
    if v.Int? {
      EverythingIsAnObject(IntegerClass);
    }
  }

  /**
    Any `Number` subtype copies into a `List<Number>`: a list of `Long`s or
    `Short`s (here `5L` and `7L`) is copied whole, as are `Integer`s and
    `Double`s, while a cast to `Integer` stops at the first of them.
  */
  lemma OtherNumbersCopyToNumbers()
    ensures Copied([OtherNum("Long", "5"), OtherNum("Long", "7")], [], NumberClass) == ([OtherNum("Long", "5"), OtherNum("Long", "7")], Normal)
    ensures Copied([OtherNum("Long", "5"), OtherNum("Long", "7")], [], IntegerClass) == ([], Threw(ClassCastException))
  {
    var s := [OtherNum("Long", "5"), OtherNum("Long", "7")];
    NumbersCastToNumber(s[0]);
    NumbersCastToNumber(s[1]);
    CopiedAllIffCastable(s, [], NumberClass);
    assert [] + s == s;
    CopiedStopsAtFirstBadCast(s, [], IntegerClass, 0);
    assert [] + s[..0] == [];
  }

  /** A copy into the list itself throws as soon as the source is non-empty. */
  lemma SelfCopyThrowsUnlessEmpty(s: seq<JValue>, cls: JClass)
    ensures SelfCopied(s, cls).1 == Normal <==> s == []
  {
  }

  /** The lesson's source lists `[1, 2, 3]` and `[1.1, 2.2, 3.3]`. */
  const LessonIntegers: seq<JValue> := [Int(1), Int(2), Int(3)]
  const LessonDoubles: seq<JValue> := [Dbl("1.1"), Dbl("2.2"), Dbl("3.3")]

  /** Every copy the lesson makes completes, and the producer copies line up integers then doubles. */
  lemma LessonCopiesComplete()
    ensures Copied(LessonIntegers, [], NumberClass) == (LessonIntegers, Normal)
    ensures Copied(LessonDoubles, LessonIntegers, NumberClass) == (LessonIntegers + LessonDoubles, Normal)
    ensures Copied(LessonIntegers, [], IntegerClass) == (LessonIntegers, Normal)
  {
    forall i | 0 <= i < |LessonIntegers|
      ensures CastSucceeds(NumberClass, LessonIntegers[i]) && CastSucceeds(IntegerClass, LessonIntegers[i])
    {
      NumbersCastToNumber(LessonIntegers[i]);
    }
    forall i | 0 <= i < |LessonDoubles|
      ensures CastSucceeds(NumberClass, LessonDoubles[i])
    {
      NumbersCastToNumber(LessonDoubles[i]);
    }
    CopiedAllIffCastable(LessonIntegers, [], NumberClass);
    CopiedAllIffCastable(LessonDoubles, LessonIntegers, NumberClass);
    CopiedAllIffCastable(LessonIntegers, [], IntegerClass);
    assert [] + LessonIntegers == LessonIntegers;
  }

  /** The producer half of the lesson: integers then doubles copied into one `List<Number>`. */
  method CopyFromSourceDemo() returns (targetNumbers: seq<JValue>)
    ensures targetNumbers == LessonIntegers + LessonDoubles
  {
    LessonCopiesComplete();
    var integers := new ArrayList.Of(LessonIntegers);
    var doubles := new ArrayList.Of(LessonDoubles);
    var target := new ArrayList();
    var o := CopyFromSource(integers, target);
    assert target.elems == LessonIntegers;
    o := CopyFromSource(doubles, target);
    targetNumbers := target.elems;
  }

  /** The consumer half: the integers copied into a `List<Number>` and into a `List<Object>`. */
  method CopyToDestinationDemo() returns (numbers: seq<JValue>, objects: seq<JValue>)
    ensures numbers == LessonIntegers && objects == LessonIntegers
  {
    LessonCopiesComplete();
    var integers := new ArrayList.Of(LessonIntegers);
    var numberList := new ArrayList();
    var objectList := new ArrayList();
    var o := CopyToDestination(integers, numberList);
    assert integers.elems == LessonIntegers;
    o := CopyToDestination(integers, objectList);
    numbers, objects := numberList.elems, objectList.elems;
  }

  /** The combined example: `copyNumbers` gives the same list as the producer copies. */
  method CopyNumbersDemo() returns (results: seq<JValue>)
    ensures results == LessonIntegers + LessonDoubles
  {
    LessonCopiesComplete();
    var integers := new ArrayList.Of(LessonIntegers);
    var doubles := new ArrayList.Of(LessonDoubles);
    var resultList := new ArrayList();
    var o := CopyNumbers(integers, resultList);
    assert resultList.elems == LessonIntegers;
    o := CopyNumbers(doubles, resultList);
    results := resultList.elems;
  }

  // ---------------------------------------------------------------------------
  // Person and the age comparator

  /** An immutable person: a name and an `int` age. */
  datatype Person = Person(name: string, age: int32)
  {
    function GetName(): string { name }

    function GetAge(): int32 { age }

    /** `name + "(" + age + ")"`: the name, then the age in decimal between parentheses. */
    function ToString(): (r: string)
      ensures r == name + "(" + IntText(age as int) + ")"
      ensures |r| == |name| + |IntText(age as int)| + 2
      ensures r[..|name|] == name && r[|name|] == '('
      ensures r[|name| + 1..|r| - 1] == IntText(age as int)
      ensures ParseInt(r[|name| + 1..|r| - 1]) == age as int && r[|r| - 1] == ')'
    {
      var digits := IntText(age as int);
      var r := name + "(" + digits + ")";
      assert r[|name| + 1..|r| - 1] == digits;
      r
    }
  }

  /**
    The getters give back what the constructor was given, and the text shows
    both. Documentation only: each clause holds by definition.
  */
  lemma GettersReturnConstructorArguments(name: string, age: int32)
    ensures Person(name, age).GetName() == name
    ensures Person(name, age).GetAge() == age
    ensures Person(name, age).ToString() == name + "(" + IntText(age as int) + ")"
  {
  }

  /** `Integer.compare(p1.getAge(), p2.getAge())`: orders people by age alone. */
  function AgeCompare(p1: Person, p2: Person): (r: int)
    ensures r < 0 <==> p1.GetAge() < p2.GetAge()
    ensures r == 0 <==> p1.GetAge() == p2.GetAge()
    ensures r > 0 <==> p1.GetAge() > p2.GetAge()
  {
    IntegerCompare(p1.GetAge(), p2.GetAge())
  }

  /** Swapping the arguments negates the result (the comparator contract's sign rule). */
  lemma AgeCompareAntisymmetric(p1: Person, p2: Person)
    ensures AgeCompare(p1, p2) == -AgeCompare(p2, p1)
  {
  }

  /** The order is transitive. */
  lemma AgeCompareTransitive(p1: Person, p2: Person, p3: Person)
    requires AgeCompare(p1, p2) > 0 && AgeCompare(p2, p3) > 0
    ensures AgeCompare(p1, p3) > 0
  {
  }

  /** People the comparator deems equal compare alike against everyone else. */
  lemma AgeCompareConsistent(p1: Person, p2: Person, p3: Person)
    requires AgeCompare(p1, p2) == 0
    ensures AgeCompare(p1, p3) == AgeCompare(p2, p3)
  {
  }

  /** The lesson's people order as Bob(25) < Alice(30) < Charlie(35). */
  lemma LessonPeopleOrder()
    ensures AgeCompare(Person("Bob", 25), Person("Alice", 30)) < 0
    ensures AgeCompare(Person("Alice", 30), Person("Charlie", 35)) < 0
    ensures Person("Alice", 30).ToString() == "Alice(30)"
  {
    assert IntText(30) == "30";
  }
}
