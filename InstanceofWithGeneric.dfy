/**
  The instanceof lesson's type-token workaround. `instanceof List<String>`
  cannot be asked after erasure, so `GenericTypeChecker` keeps the
  `Class<T>` object it is built with and asks it, through
  `Class.isInstance`, about the first element of a list.
*/
module InstanceofWithGeneric {
  import opened JavaRuntime
  import opened JavaCollections

  /** "The first element is a `cls`": the lesson's first workaround, `!list.isEmpty() && list.get(0) instanceof C`. */
  predicate FirstElementIs(list: seq<JValue>, cls: JClass) {
    |list| > 0 && IsInstance(cls, list[0])
  }

  class GenericTypeChecker {
    /** The type token; the field is assigned once, by the constructor. */
    const token: JClass

    /** `new GenericTypeChecker<>(C.class)`. */
    constructor (token: JClass)
      ensures this.token == token
    {
      this.token := token;
    }

    /**
      `checkListType(list)`: false for an empty list; otherwise whether the
      first element is a non-null instance of the token's class. The list is
      only read.
    */
    function CheckListType(list: seq<JValue>): (r: bool)
      ensures list == [] ==> !r
      ensures r <==> |list| > 0 && !list[0].Null? && SubclassOf(ClassOf(list[0]), token)
    {
      if |list| == 0 then false else IsInstance(token, list[0])
    }
  }

  /** The checker answers exactly what the first workaround answers for the same class. */
  lemma CheckerIsFirstElementTest(checker: GenericTypeChecker, list: seq<JValue>)
    ensures checker.CheckListType(list) <==> FirstElementIs(list, checker.token)
  {
  }

  /** Only the first element decides: whatever follows it is never looked at. */
  lemma OnlyFirstElementDecides(checker: GenericTypeChecker, first: JValue, rest: seq<JValue>)
    ensures checker.CheckListType([first] + rest) == checker.CheckListType([first])
  {
    assert ([first] + rest)[0] == first;
  }

  /** So a mixed list can pass: `["Hello", 42]` passes the String check although 42 is no String. */
  lemma MixedListPassesStringCheck(checker: GenericTypeChecker)
    requires checker.token == StringClass
    ensures checker.CheckListType([Str("Hello"), Int(42)])
    ensures !IsInstance(StringClass, Int(42))
  {
  }

  /** A null first element fails every check, since `isInstance(null)` is false. */
  lemma NullFirstElementFails(checker: GenericTypeChecker, rest: seq<JValue>)
    ensures !checker.CheckListType([Null] + rest)
  {
    assert ([Null] + rest)[0] == Null;
  }

  /** A list that passes a checker passes every checker for a superclass of its token. */
  lemma CheckPassesUpward(checker: GenericTypeChecker, wider: GenericTypeChecker, list: seq<JValue>)
    requires SubclassOf(checker.token, wider.token)
    requires checker.CheckListType(list)
    ensures wider.CheckListType(list)
  {
    InstanceOfSuperclass(checker.token, wider.token, list[0]);
  }

  /**
    A token for a class outside the lessons tells classes apart by name: a
    `Boolean` checker rejects `['x']` (a `Character`), a `Long` checker
    rejects a `Short`, and a `Number` checker accepts a `Long`.
  */
  lemma OtherClassesAreKeptApart(checker: GenericTypeChecker, other: string, name: string)
    requires checker.token == OtherClass(other) && name != other
    ensures !checker.CheckListType([Other(name, "x")])
    ensures checker.CheckListType([Other(other, "x")])
    ensures !checker.CheckListType([OtherNum(name, "5")])
    ensures !IsInstance(OtherNumberClass("Long"), OtherNum("Short", "5"))
    ensures IsInstance(NumberClass, OtherNum("Long", "5"))
  {
  }

  /** An `Object` checker accepts exactly the lists whose first element is not null. */
  lemma ObjectCheckerAcceptsNonNullFirst(checker: GenericTypeChecker, list: seq<JValue>)
    requires checker.token == ObjectClass
    ensures checker.CheckListType(list) <==> |list| > 0 && !list[0].Null?
  {
    if |list| > 0 && !list[0].Null? {
      EverythingIsAnObject(ClassOf(list[0]));
    }
  }

  /**
    The lesson's checks on `["Hello"]` and `[42]`: the String checker accepts
    the first and rejects the second, the Integer checker accepts the second;
    the first workaround agrees.
  */
  method TypeTokenExamples() returns (stringsAreStrings: bool, integersAreStrings: bool, integersAreIntegers: bool)
    ensures stringsAreStrings && !integersAreStrings && integersAreIntegers
  {
    var stringList := new ArrayList();
    var _ := stringList.Add(Str("Hello"));
    var integerList := new ArrayList();
    var _ := integerList.Add(Int(42));
    assert FirstElementIs(stringList.elems, StringClass) && FirstElementIs(integerList.elems, IntegerClass);

    var stringChecker := new GenericTypeChecker(StringClass);
    var intChecker := new GenericTypeChecker(IntegerClass);
    stringsAreStrings := stringChecker.CheckListType(stringList.elems);
    integersAreStrings := stringChecker.CheckListType(integerList.elems);
    integersAreIntegers := intChecker.CheckListType(integerList.elems);
  }

  /**
    The `com.ocp.generics` lesson's guarded check before its unchecked cast
    (`obj1 instanceof List<?> list && !list.isEmpty() && list.get(0) instanceof String`):
    it holds for `["Hello"]`, and the element then read is "Hello".
  */
  method GuardedCastExample() returns (isStringList: bool, firstString: Result<JValue>)
    ensures isStringList
    ensures firstString == Ok(Str("Hello"))
  {
    var stringList := new ArrayList();
    var _ := stringList.Add(Str("Hello"));
    isStringList := FirstElementIs(stringList.elems, StringClass);
    firstString := stringList.Get(0);
  }
}
