/**
  The lower-bounded wildcard lesson (`List<? super Integer>`): `addNumbers`
  writes three Integers into any list that can hold them and reads the first
  element back as a plain `Object`; `processElements` appends two Numbers
  and then tells the elements apart with `instanceof`.
*/
module SuperWildcard {
  import opened JavaRuntime
  import opened JavaCollections

  /** What `addNumbers` appends: the boxed Integers 1, 2 and 3, in that order. */
  const OneTwoThree: seq<JValue> := [Int(1), Int(2), Int(3)]

  /**
    `addNumbers(list)`: appends 1, 2 and 3, then reads index 0. The read
    cannot fail, since the list is non-empty by then.
  */
  method AddNumbers(list: ArrayList) returns (first: JValue)
    modifies list
    ensures list.elems == old(list.elems) + OneTwoThree
    ensures list.modCount == old(list.modCount) + 3
    ensures first == (if old(list.elems) == [] then Int(1) else old(list.elems)[0])
  {
    var _ := list.Add(Int(1));
    var _ := list.Add(Int(2));
    var _ := list.Add(Int(3));
    var read := list.Get(0);
    first := read.value;
  }

  /**
    On values: what `addNumbers` leaves behind keeps every old element at its
    old index, is three longer, ends with 1, 2, 3, and starts with the old
    first element (or 1). Documentation only: these facts about `+` on
    sequences need no proof, and `AddNumbers` states its new contents itself.
  */
  lemma AddNumbersKeepsPrefix(s: seq<JValue>)
    ensures |s + OneTwoThree| == |s| + 3
    ensures forall i :: 0 <= i < |s| ==> (s + OneTwoThree)[i] == s[i]
    ensures (s + OneTwoThree)[|s|..] == OneTwoThree
    ensures (s + OneTwoThree)[0] == if s == [] then Int(1) else s[0]
  {
  }

  /** Everything `addNumbers` writes is an Integer, so any `List<? super Integer>` can hold it. */
  lemma AddedNumbersFitAnySuperOfInteger(cls: JClass)
    requires SubclassOf(IntegerClass, cls)
    ensures forall v :: v in OneTwoThree ==> IsInstance(cls, v)
  {
    forall v | v in OneTwoThree
      ensures IsInstance(cls, v)
    {
      InstanceOfSuperclass(IntegerClass, cls, v);
    }
  }

  /**
    The lesson's `main`: 10 and 42 go into `numbers` through a
    `List<? super Integer>` view; `addNumbers` runs on the Integer, Number
    and Object lists; 999 goes into `objects`; the Object read back from
    `objects` is the Integer 1.
  */
  method AddNumbersExample() returns (element: JValue, integers: seq<JValue>, numbers: seq<JValue>,
                                      objects: seq<JValue>, retrieved: JValue)
    ensures element == Int(10)
    ensures integers == [Int(1), Int(2), Int(3)]
    ensures numbers == [Int(10), Int(42), Int(1), Int(2), Int(3)]
    ensures objects == [Int(1), Int(2), Int(3), Int(999)]
    ensures retrieved == Int(1) && IsInstance(IntegerClass, retrieved)
  {
    var numberList := new ArrayList();
    var objectList := new ArrayList();
    var integerList := new ArrayList();
    var integerConsumer := numberList;
    var _ := integerConsumer.Add(Int(10));
    var _ := integerConsumer.Add(Int(42));
    var read := integerConsumer.Get(0);
    element := read.value;

    var _ := AddNumbers(integerList);
    var _ := AddNumbers(numberList);
    var _ := AddNumbers(objectList);

    var mysteryList := objectList;
    var _ := mysteryList.Add(Int(999));
    read := mysteryList.Get(0);
    retrieved := read.value;
    integers, numbers, objects := integerList.elems, numberList.elems, objectList.elems;
  }

  /** What `processElements` reports for one element. */
  datatype Classification =
    | IntegerSquare(value: int32, square: int32)
    | DoubleElement(text: string)
    | OtherElement(text: string)

  /**
    The `instanceof Integer` / `instanceof Double` / other chain, in that
    order. An Integer is reported with `i * i` in 32-bit arithmetic; a Double
    with its text only; anything else, null included, with its text.
  */
  function Classify(v: JValue): (c: Classification)
    ensures c.IntegerSquare? <==> IsInstance(IntegerClass, v)
    ensures c.DoubleElement? <==> IsInstance(DoubleClass, v)
    ensures c.IntegerSquare? ==> c.value == v.i && c.square == Mul32(v.i, v.i)
    ensures c.DoubleElement? ==> c.text == v.text
    ensures c.OtherElement? ==> c.text == Text(v)
  {
    if IsInstance(IntegerClass, v) then IntegerSquare(v.i, Mul32(v.i, v.i))
    else if IsInstance(DoubleClass, v) then DoubleElement(v.text)
    else OtherElement(Text(v))
  }

  /** The square is the true square while it fits in an `int`, and wraps past that. */
  lemma IntegerSquareWraps()
    ensures Classify(Int(46340)) == IntegerSquare(46340, 2147395600)
    ensures Classify(Int(46341)) == IntegerSquare(46341, -2147479015)
  {
  }

  /** No value is both an Integer and a Double, so the order of the two tests does not matter. */
  lemma IntegerAndDoubleDisjoint(v: JValue)
    ensures !(IsInstance(IntegerClass, v) && IsInstance(DoubleClass, v))
  {
  }

  /**
    `processElements(list)`: appends 42 and 3.14, then reports every element
    of the list in order.
  */
  method ProcessElements(list: ArrayList) returns (report: seq<Classification>)
    modifies list
    ensures list.elems == old(list.elems) + [Int(42), Dbl("3.14")]
    ensures list.modCount == old(list.modCount) + 2
    ensures |report| == |list.elems|
    ensures forall i :: 0 <= i < |report| ==> report[i] == Classify(list.elems[i])
  {
    var _ := list.Add(Int(42));
    var _ := list.Add(Dbl("3.14"));
    report := [];
    for i := 0 to |list.elems|
      invariant |report| == i
      invariant forall j :: 0 <= j < i ==> report[j] == Classify(list.elems[j])
    {
      report := report + [Classify(list.elems[i])];
    }
  }

  /**
    The `com.ocp.generics` lesson's `main`: 10 and 20 go into the Object list
    (the last list assigned to the `? super Integer` variable), `addNumbers`
    runs on all three lists, and `processElements` runs on the Number list.
  */
  method ProcessElementsExample() returns (element: JValue, objects: seq<JValue>, numbers: seq<JValue>,
                                           report: seq<Classification>)
    ensures element == Int(10)
    ensures objects == [Int(10), Int(20), Int(1), Int(2), Int(3)]
    ensures numbers == [Int(1), Int(2), Int(3), Int(42), Dbl("3.14")]
    ensures report == [IntegerSquare(1, 1), IntegerSquare(2, 4), IntegerSquare(3, 9),
                       IntegerSquare(42, 1764), DoubleElement("3.14")]
  {
    var integerList := new ArrayList();
    var numberList := new ArrayList();
    var objectList := new ArrayList();
    var integerConsumer := objectList;
    var _ := integerConsumer.Add(Int(10));
    var _ := integerConsumer.Add(Int(20));
    var read := integerConsumer.Get(0);
    element := read.value;

    var _ := AddNumbers(integerList);
    var _ := AddNumbers(numberList);
    var _ := AddNumbers(objectList);
    report := ProcessElements(numberList);
    objects, numbers := objectList.elems, numberList.elems;
  }
}
