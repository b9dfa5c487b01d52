/**
  The type-inference lesson's helpers: a varargs list factory, a generic
  `concatenate` that branches on the runtime class of its first argument,
  a two-type-parameter concatenation with a separator, and empty-list
  factories. Type arguments are erased, so each helper sees plain object
  references; the `(T)` casts on the results are unchecked and pass.
*/
module TypeInference {
  import opened JavaRuntime
  import opened JavaCollections

  /** `createList(T... elements)`: a fresh list holding the arguments in argument order. */
  method CreateList(elements: seq<JValue>) returns (result: ArrayList)
    ensures fresh(result)
    ensures result.elems == elements
    ensures result.modCount == |elements|
  {
    result := new ArrayList();
    for i := 0 to |elements|
      invariant result.elems == elements[..i]
      invariant result.modCount == i
    {
      var _ := result.Add(elements[i]);
      assert elements[..i + 1] == elements[..i] + [elements[i]];
    }
    assert elements[..|elements|] == elements;
  }

  /**
    `concatenate(first, second)`. A String first argument gives
    `first.toString() + second.toString()`; an Integer first argument gives
    the `int` sum, after casting `second` to Integer and unboxing it; anything
    else falls back to the string concatenation. `toString()` and unboxing
    throw a NullPointerException on null; the cast to Integer throws a
    ClassCastException on a non-null non-Integer.
  */
  function Concatenate(first: JValue, second: JValue): (r: Result<JValue>)
    ensures r.Ok? <==> !first.Null? && !second.Null? && (first.Int? ==> second.Int?)
    ensures r.Ok? && first.Int? ==> r.value == Int(Add32(first.i, second.i))
    ensures r.Ok? && !first.Int? ==> r.value == Str(Text(first) + Text(second))
    ensures r.Err? ==> (r.ex == ClassCastException <==> first.Int? && !second.Null? && !second.Int?)
    ensures r.Err? ==> r.ex in {ClassCastException, NullPointerException}
  {
    if IsInstance(StringClass, first) then
      if second.Null? then Err(NullPointerException) else Ok(Str(Text(first) + Text(second)))
    else if IsInstance(IntegerClass, first) then
      match CheckCast(IntegerClass, second)
      case Err(ex) => Err(ex)
      case Ok(n) => if n.Null? then Err(NullPointerException) else Ok(Int(Add32(first.i, n.i)))
    else if first.Null? || second.Null? then Err(NullPointerException)
    else Ok(Str(Text(first) + Text(second)))
  }

  /** The String branch: the two texts joined, e.g. "Hello" and "World" give "HelloWorld". */
  lemma ConcatenateStrings(s: string, second: JValue)
    requires !second.Null?
    ensures Concatenate(Str(s), second) == Ok(Str(s + Text(second)))
  {
  }

  /** The Integer branch is the 32-bit sum: exact when it fits, wrapped modulo 2^32 otherwise. */
  lemma ConcatenateIntegersIsSum(a: int32, b: int32)
    ensures Concatenate(Int(a), Int(b)).Ok?
    ensures Concatenate(Int(a), Int(b)).value.Int?
    ensures (Concatenate(Int(a), Int(b)).value.i as int - (a as int + b as int)) % TwoTo32 == 0
    ensures -0x8000_0000 <= a as int + b as int < 0x8000_0000 ==>
      Concatenate(Int(a), Int(b)).value.i as int == a as int + b as int
  {
  }

  /** The Integer branch does not depend on the order of its arguments. */
  lemma ConcatenateIntegersCommute(a: int32, b: int32)
    ensures Concatenate(Int(a), Int(b)) == Concatenate(Int(b), Int(a))
  {
    assert a as int + b as int == b as int + a as int;
  }

  /** `Integer.MAX_VALUE + 1` wraps to `Integer.MIN_VALUE`, as Java's `int` addition does. */
  lemma ConcatenateIntegersOverflow()
    ensures Concatenate(Int(0x7fff_ffff), Int(1)) == Ok(Int(-0x8000_0000))
  {
  }

  /** With an Integer first argument, a non-Integer second fails its cast and a null second fails its unboxing. */
  lemma ConcatenateIntegerWithOther(a: int32, second: JValue)
    requires !second.Int?
    ensures Concatenate(Int(a), second) == Err(if second.Null? then NullPointerException else ClassCastException)
  {
  }

  /** A null first argument throws on `first.toString()`, whatever the second. */
  lemma ConcatenateNullFirst(second: JValue)
    ensures Concatenate(Null, second) == Err(NullPointerException)
  {
  }

  /**
    The fallback for any other class gives what the String branch gives for
    the first argument's text.
  */
  lemma ConcatenateFallbackIsStringBranch(first: JValue, second: JValue)
    requires !first.Null? && !first.Str? && !first.Int?
    ensures Concatenate(first, second) == Concatenate(Str(Text(first)), second)
  {
  }

  /** The lesson's calls: "Hello"+"World", "Hello"+" World" and 5+10. */
  lemma ConcatenateExamples()
    ensures Concatenate(Str("Hello"), Str("World")) == Ok(Str("HelloWorld"))
    ensures Concatenate(Str("Hello"), Str(" World")) == Ok(Str("Hello World"))
    ensures Concatenate(Int(5), Int(10)) == Ok(Int(15))
  {
    ConcatenateStrings("Hello", Str("World"));
    ConcatenateStrings("Hello", Str(" World"));
    assert "Hello" + "World" == "HelloWorld";
    assert "Hello" + " World" == "Hello World";
  }

  /**
    `concatenateWithSeparator(first, second, separator)`:
    `first.toString() + separator + second.toString()`, throwing a
    NullPointerException when either element is null.
  */
  function ConcatenateWithSeparator(first: JValue, second: JValue, separator: string): (r: Result<string>)
    ensures r.Ok? <==> !first.Null? && !second.Null?
    ensures r.Ok? ==> |r.value| == |Text(first)| + |separator| + |Text(second)|
    ensures r.Ok? ==> r.value[..|Text(first)|] == Text(first)
    ensures r.Ok? ==> r.value[|Text(first)|..|Text(first)| + |separator|] == separator
    ensures r.Ok? ==> r.value[|Text(first)| + |separator|..] == Text(second)
    ensures r.Err? ==> r.ex == NullPointerException
  {
    if first.Null? || second.Null? then Err(NullPointerException)
    else
      var joined := Text(first) + separator + Text(second);
      assert joined[..|Text(first)|] == Text(first);
      assert joined[|Text(first)|..|Text(first)| + |separator|] == separator;
      assert joined[|Text(first)| + |separator|..] == Text(second);
      Ok(joined)
  }

  /** With an empty separator it agrees with `concatenate` on anything but an Integer first argument. */
  lemma SeparatorFreeIsConcatenate(first: JValue, second: JValue)
    requires !first.Int?
    ensures ConcatenateWithSeparator(first, second, "").Ok? <==> Concatenate(first, second).Ok?
    ensures ConcatenateWithSeparator(first, second, "").Ok? ==>
      Concatenate(first, second).value == Str(ConcatenateWithSeparator(first, second, "").value)
  {
    if !first.Null? && !second.Null? {
      assert Text(first) + "" + Text(second) == Text(first) + Text(second);
    }
  }

  /** The lesson's call gives "Count is: 5". */
  lemma ConcatenateWithSeparatorExample()
    ensures ConcatenateWithSeparator(Str("Count"), Int(5), " is: ") == Ok("Count is: 5")
  {
    assert Text(Int(5)) == [DigitChar(5)] == "5";
    assert "Count" + " is: " + "5" == "Count is: 5";
  }

  /** `emptyList()` and `createEmptyList()`: a fresh empty list on every call. */
  method EmptyList() returns (result: ArrayList)
    ensures fresh(result)
    ensures result.elems == [] && result.modCount == 0
  {
    result := new ArrayList();
  }

  /**
    The lesson's two factory calls: each result is its own list, so adding to
    one leaves the other holding only its own element.
  */
  method EmptyListsAreIndependent() returns (targetTyped: seq<JValue>, explicitType: seq<JValue>)
    ensures targetTyped == [Str("Target typed")]
    ensures explicitType == [Str("Explicit type")]
  {
    var first := EmptyList();
    var _ := first.Add(Str("Target typed"));
    var second := EmptyList();
    var _ := second.Add(Str("Explicit type"));
    targetTyped, explicitType := first.elems, second.elems;
  }

  /**
    The lesson's `createList` calls: the arguments come back in order, and
    the first element of each list has the class the call inferred.
  */
  method CreateListExamples() returns (names: ArrayList, numbers: ArrayList)
    ensures names.elems == [Str("Alice"), Str("Bob"), Str("Charlie")]
    ensures numbers.elems == [Int(1), Int(2), Int(3)]
    ensures ClassOf(names.elems[0]) == StringClass && ClassOf(numbers.elems[0]) == IntegerClass
  {
    names := CreateList([Str("Alice"), Str("Bob"), Str("Charlie")]);
    numbers := CreateList([Int(1), Int(2), Int(3)]);
  }
}
