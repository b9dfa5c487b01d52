# Java generics lessons: the helper methods, modelled in Dafny

The repository is a set of Java teaching programs about generics. Two
packages, `com.javagenericsdemo` and `com.ocp.generics`, cover the same
lessons: wildcards, the PECS rule ("producer extends, consumer super"), type
inference, and why `instanceof` and `add` fail on generic types. Most of each
program prints narration. Beside the narration every lesson has a few small
generic helper methods, and those helpers are what this project models:

- the list combinators `identity`, `countGreaterThan`, `exchange`, `transform` and `filter`;
- the copy and append helpers `copyFromSource`, `copyToDestination`, `copyNumbers`, `addNumbers`, `addMammals` and `processElements`, with the PECS lesson's `Person` and age comparator;
- the type-inference helpers `createList`, `concatenate`, `concatenateWithSeparator`, `emptyList` and `createEmptyList`;
- the type-token checker `GenericTypeChecker.checkListType`;
- the Animal hierarchy (Mammal and Bird under Animal, Dog and Cat under Mammal), its `toString`, and `processDogs`.

Generic type arguments are erased at run time, so the model works on runtime
values (`JavaRuntime.JValue`). A value is null, a String, an `int`-valued
Integer, a Double, another `Number` (a `Long`, say), an animal, or an object
of some other class. Values outside the lessons' own classes carry the name
of their class, so a `Long` and a `Short`, or a `Boolean` and a `Character`,
have different classes. Such a class sits directly under `Number` or under
`Object`.
`instanceof`, `Class.isInstance` and reference casts become tests on the
value's class (`IsInstance`, `CheckCast`). A failed cast is a
`ClassCastException` outcome, not a crash of the model. `int` arithmetic
wraps modulo 2^32 (`Wrap32`).

Lists the helpers change in place are an `ArrayList` class
(`JavaCollections.ArrayList`). It has the fields `elems` and `modCount`.
`modCount` counts structural changes, and models the fail-fast iterator that
a for-each loop uses. Read-only helpers work on the contents as a `seq`.

A for-each loop over a `List<E>` casts every element to the erasure of `E`.
That cast is why `processDogs` stops at a Cat slipped in through a raw list.
The copy helpers are modelled past what the wildcards allow: a source holding
a wrongly typed element stops the copy at that element with a
ClassCastException. A list copied into itself throws
ConcurrentModificationException on the second step.

The two packages' copies of each helper have the same code, so each helper
is modelled once. The table cites both files where the code appears in both.

Modules follow the lessons: `JavaRuntime` (values, classes, casts,
`toString`, `int` arithmetic), `JavaCollections` (the list class),
`GenericMethodWithWildcard`, `PecsRule`, `TypeInference`,
`InstanceofWithGeneric`, `SuperWildcard` and `AddWithExtends`.

## Model

| member | source | states |
|---|---|---|
| JavaRuntime.Wrap32 | src/main/java/com/javagenericsdemo/Main_TypeInference.java:211 | Java `int` arithmetic: the result agrees with the true value modulo 2^32, and is that value when it fits in 32 bits |
| JavaRuntime.Add32 | src/main/java/com/javagenericsdemo/Main_TypeInference.java:211 | `+` on `int`s, as in `concatenate`'s Integer branch: the true sum modulo 2^32, and the true sum when it fits |
| JavaRuntime.Mul32 | src/main/java/com/ocp/generics/Main_SuperWildcard.java:115 | `*` on `int`s, as in `i * i`: the true product modulo 2^32, and the true product when it fits |
| JavaRuntime.JavaRem | src/main/java/com/javagenericsdemo/Main_GenericMethodWithWildcard.java:68 | Java's `%` for a positive divisor: the dividend minus the truncated quotient times the divisor, so strictly between -b and b and, when non-zero, negative exactly when the dividend is |
| JavaRuntime.JavaRemExamples | src/main/java/com/javagenericsdemo/Main_GenericMethodWithWildcard.java:68 | `-7 % 2` is -1 and `-5 % 3` is -2 in Java, where the Euclidean remainder is 1 |
| JavaRuntime.IntegerCompare | src/main/java/com/javagenericsdemo/Main_PecsRule.java:230 | `Integer.compare`: negative, zero or positive exactly when x < y, x == y or x > y, and always between -1 and 1 |
| JavaRuntime.Superclass | src/main/java/com/javagenericsdemo/Main_WhyCannotAddWithExtends.java:206-273 | every class but Object has one direct superclass, one level nearer Object |
| JavaRuntime.SubclassTransitive | src/main/java/com/javagenericsdemo/Main_WhyCannotAddWithExtends.java:206-273 | inheritance is transitive |
| JavaRuntime.SubclassAntisymmetric | src/main/java/com/javagenericsdemo/Main_WhyCannotAddWithExtends.java:206-273 | two classes that inherit from each other are the same class |
| JavaRuntime.EverythingIsAnObject | src/main/java/com/javagenericsdemo/Main_WhyCannotAddWithExtends.java:206 | every class inherits from Object |
| JavaRuntime.IsInstance | src/main/java/com/javagenericsdemo/Main_WhyCannotUseInstanceofWithGeneric.java:203 | `instanceof` and `Class.isInstance`: false on null, true of an object for its own class, for Object true exactly of the non-null values, for String, Integer, Double and Number true exactly of their own values, for Animal and Mammal true exactly of the animals of that class or a subclass, for Bird, Dog and Cat true exactly of those animals, and for a class outside the lessons (`OtherClass(n)`, `OtherNumberClass(n)`) true only of objects of that same class; the `instanceof` tests at src/main/java/com/javagenericsdemo/Main_TypeInference.java:203-208 and src/main/java/com/ocp/generics/Main_WhyCannotUseInstanceofWithGeneric.java:136 are the same test |
| JavaRuntime.InstanceOfSuperclass | src/main/java/com/javagenericsdemo/Main_WhyCannotAddWithExtends.java:190-196 | an instance of a class is an instance of every superclass of it, which is why Mammals fit a `List<? super Mammal>` |
| JavaRuntime.CheckCast | src/main/java/com/javagenericsdemo/Main_PecsRule.java:140 | the cast a for-each loop inserts: passes (unchanged) exactly null and instances of the target class; otherwise a ClassCastException |
| JavaRuntime.IntText | src/main/java/com/javagenericsdemo/Main_PecsRule.java:258 | `Integer.toString`, as used when an `int` is concatenated to a string: a minus sign exactly for negatives, then decimal digits only with no leading zero, and it parses back to the number |
| JavaRuntime.Text | src/main/java/com/javagenericsdemo/Main_TypeInference.java:206 | `toString` of a value: "null" for null, a String itself, an Integer's `Integer.toString` (digits with no leading zero, parsing back to it), an animal's simple class name with its name in parentheses |
| JavaCollections.ArrayList.constructor | src/main/java/com/javagenericsdemo/Main_TypeInference.java:168 | `new ArrayList<>()` is empty with no modifications counted |
| JavaCollections.ArrayList.Of | src/main/java/com/javagenericsdemo/Main_WhyCannotAddWithExtends.java:54 | `new ArrayList<>(Arrays.asList(...))` holds the given elements in order |
| JavaCollections.ArrayList.Get | src/main/java/com/javagenericsdemo/Main_GenericMethodWithWildcard.java:140-141 | `get(index)` returns the element exactly when `0 <= index < size`, otherwise an IndexOutOfBoundsException |
| JavaCollections.ArrayList.Add | src/main/java/com/javagenericsdemo/Main_PecsRule.java:141 | `add(x)` appends x, answers true and counts one structural modification |
| JavaCollections.ArrayList.Set | src/main/java/com/javagenericsdemo/Main_GenericMethodWithWildcard.java:144-145 | `set(index, x)` returns the old element and overwrites that one slot; out of range it throws and changes nothing; it is not a structural modification |
| GenericMethodWithWildcard.CountAbove | src/main/java/com/javagenericsdemo/Main_GenericMethodWithWildcard.java:107-115 | the count of items comparing above `element` is between 0 and the list length |
| GenericMethodWithWildcard.CountGreaterThan | src/main/java/com/javagenericsdemo/Main_GenericMethodWithWildcard.java:107-115 | the counting loop returns `CountAbove` of the list, between 0 and the list length |
| GenericMethodWithWildcard.CountAboveIsFilteredLength | src/main/java/com/javagenericsdemo/Main_GenericMethodWithWildcard.java:109-113 | the count is the length of the sublist of items whose `compareTo(element)` is positive |
| GenericMethodWithWildcard.IntegerCountIsStrictlyGreater | src/main/java/com/javagenericsdemo/Main_GenericMethodWithWildcard.java:107-115 | on Integers the count is the number of items strictly greater than `element`; an item equal to `element` is not counted |
| GenericMethodWithWildcard.CountGreaterThanDemo | src/main/java/com/javagenericsdemo/Main_GenericMethodWithWildcard.java:34-39 | `countGreaterThan([1, 2, 3, 4, 5], 3)` is 2 |
| GenericMethodWithWildcard.Exchanged | src/main/java/com/javagenericsdemo/Main_GenericMethodWithWildcard.java:139-146 | on two lists, `list1[pos1]` gets the old `list2[pos2]` and `list2[pos2]` the old `list1[pos1]`; lengths and every other slot stay as they were |
| GenericMethodWithWildcard.Swapped | src/main/java/com/javagenericsdemo/Main_GenericMethodWithWildcard.java:139-146 | on one list passed twice, both reads come before either write, so the result is a swap: the two slots trade values, the others stay the same, and the list is a permutation of the old one |
| GenericMethodWithWildcard.ExchangeTwiceRestores | src/main/java/com/javagenericsdemo/Main_GenericMethodWithWildcard.java:139-146 | exchanging the same positions twice restores both lists |
| GenericMethodWithWildcard.SwapTwiceRestores | src/main/java/com/javagenericsdemo/Main_GenericMethodWithWildcard.java:139-146 | swapping the same positions of one list twice restores it |
| GenericMethodWithWildcard.Exchange | src/main/java/com/javagenericsdemo/Main_GenericMethodWithWildcard.java:124-146 | `exchange` completes exactly when both positions are in range, and then leaves `Exchanged` (two lists) or `Swapped` (one list) behind; an out-of-range position throws at a `get`, before any `set`, leaving both lists unchanged; modification counts never change |
| GenericMethodWithWildcard.ExchangeDemo | src/main/java/com/javagenericsdemo/Main_GenericMethodWithWildcard.java:49-54 | exchanging position 0 of `[1, 2]` and `[3, 4]` gives `[3, 2]` and `[1, 4]` |
| GenericMethodWithWildcard.Mapped | src/main/java/com/javagenericsdemo/Main_GenericMethodWithWildcard.java:152-158 | the mapped list has the input's length |
| GenericMethodWithWildcard.MappedAt | src/main/java/com/javagenericsdemo/Main_GenericMethodWithWildcard.java:154-156 | element i of the mapped list is `f` of element i of the input |
| GenericMethodWithWildcard.Identity | src/main/java/com/javagenericsdemo/Main_GenericMethodWithWildcard.java:96-98 | `identity(t)` returns its argument itself |
| GenericMethodWithWildcard.MappedIdentity | src/main/java/com/javagenericsdemo/Main_GenericMethodWithWildcard.java:96-98 | transforming by `identity` gives back the same list |
| GenericMethodWithWildcard.Transform | src/main/java/com/javagenericsdemo/Main_GenericMethodWithWildcard.java:152-158 | `transform` returns a new list of the input's length with `result[i] == f(list[i])` |
| GenericMethodWithWildcard.TransformDemo | src/main/java/com/javagenericsdemo/Main_GenericMethodWithWildcard.java:59-60 | the lengths of "Alice", "Bob" and "Charlie" are `[5, 3, 7]` |
| GenericMethodWithWildcard.Filtered | src/main/java/com/javagenericsdemo/Main_GenericMethodWithWildcard.java:164-172 | the filtered list is no longer than the input |
| GenericMethodWithWildcard.FilteredCounts | src/main/java/com/javagenericsdemo/Main_GenericMethodWithWildcard.java:164-172 | every value that satisfies the predicate appears in the result as often as in the input; no other value appears |
| GenericMethodWithWildcard.FilteredInOrder | src/main/java/com/javagenericsdemo/Main_GenericMethodWithWildcard.java:164-172 | the result is an order-preserving subsequence: its k-th element sits at the k-th kept position, the kept positions increase, and a position is kept exactly when its element satisfies the predicate |
| GenericMethodWithWildcard.FilteredKeepsAll | src/main/java/com/javagenericsdemo/Main_GenericMethodWithWildcard.java:164-172 | a list whose elements all pass is returned unchanged |
| GenericMethodWithWildcard.FilteredAllSatisfy | src/main/java/com/javagenericsdemo/Main_GenericMethodWithWildcard.java:167 | every element of the result satisfies the predicate |
| GenericMethodWithWildcard.FilteredIdempotent | src/main/java/com/javagenericsdemo/Main_GenericMethodWithWildcard.java:164-172 | filtering the result again with the same predicate changes nothing |
| GenericMethodWithWildcard.Filter | src/main/java/com/javagenericsdemo/Main_GenericMethodWithWildcard.java:164-172 | the filtering loop returns `Filtered` of the list: exactly the passing elements, each as often as in the input |
| GenericMethodWithWildcard.IsEven | src/main/java/com/javagenericsdemo/Main_GenericMethodWithWildcard.java:68 | the lambda `n -> n % 2 == 0`, computed with Java's truncating `%`, holds exactly when 2 divides n, negative n included |
| GenericMethodWithWildcard.EvensUpToTen | src/main/java/com/javagenericsdemo/Main_GenericMethodWithWildcard.java:67-68 | the elements of 1..10 that pass `n % 2 == 0` are `[2, 4, 6, 8, 10]` |
| GenericMethodWithWildcard.FilterDemo | src/main/java/com/javagenericsdemo/Main_GenericMethodWithWildcard.java:67-68 | `filter` of 1..10 by evenness returns `[2, 4, 6, 8, 10]` |
| PecsRule.ForEachAdd | src/main/java/com/javagenericsdemo/Main_PecsRule.java:139-142 | the for-each copy loop: for two lists, the destination ends as `Copied` (old contents, then the source up to the first failing cast) and the source is untouched; for one list, `SelfCopied`; the destination's modification count grows by the number of elements added |
| PecsRule.ForEachAddDistinct | src/main/java/com/javagenericsdemo/Main_PecsRule.java:139-142 | the copy loop over two different lists leaves the destination and the outcome that `Copied` gives |
| PecsRule.ForEachAddSelf | src/main/java/com/javagenericsdemo/Main_PecsRule.java:139-142 | the copy loop over one list leaves the list and the outcome that `SelfCopied` gives |
| PecsRule.CopyFromSource | src/main/java/com/javagenericsdemo/Main_PecsRule.java:139-142 | `copyFromSource`: the copy loop with the cast to Number; the copy in the other package (src/main/java/com/ocp/generics/Main_PecsRule.java:104-107) has the same code |
| PecsRule.CopyToDestination | src/main/java/com/javagenericsdemo/Main_PecsRule.java:171-174 | `copyToDestination`: the copy loop with the cast to Integer; the copy in the other package (src/main/java/com/ocp/generics/Main_PecsRule.java:119-122) has the same code |
| PecsRule.CopyNumbers | src/main/java/com/javagenericsdemo/Main_PecsRule.java:201-205 | `copyNumbers`: the copy loop with the cast to Number; the copy in the other package (src/main/java/com/ocp/generics/Main_PecsRule.java:136-139) has the same code |
| PecsRule.CopiedAllIffCastable | src/main/java/com/javagenericsdemo/Main_PecsRule.java:139-142 | a copy completes exactly when every source element passes the cast, and then the destination is its old contents followed by the whole source in order, so it grows by exactly the source length |
| PecsRule.CopiedStopsAtFirstBadCast | src/main/java/com/javagenericsdemo/Main_PecsRule.java:140 | a copy from a polluted source keeps exactly the elements before the first failing cast and throws a ClassCastException |
| PecsRule.CopiedEmptySource | src/main/java/com/javagenericsdemo/Main_PecsRule.java:139-142 | copying an empty source leaves the destination unchanged |
| PecsRule.CopiedOnlyAppends | src/main/java/com/ocp/generics/Main_PecsRule.java:104-139 | whatever the outcome, the old destination stays a prefix and the destination grows by at most the source length |
| PecsRule.CopiedAddsOnlyInstances | src/main/java/com/javagenericsdemo/Main_PecsRule.java:171-174 | every element a copy adds is null or an instance of the cast's class, so `? super Integer` destinations only receive Integers or null |
| PecsRule.SuccessiveCopiesConcatenate | src/main/java/com/javagenericsdemo/Main_PecsRule.java:61-63 | two well-typed copies into one destination append both sources in call order |
| PecsRule.NumbersCastToNumber | src/main/java/com/javagenericsdemo/Main_PecsRule.java:49-52 | Integers, Doubles and other Numbers pass the cast to Number, Integers the cast to Object, and a Double fails the cast to Integer |
| PecsRule.OtherNumbersCopyToNumbers | src/main/java/com/javagenericsdemo/Main_PecsRule.java:125 | any list of `Number` subtypes copies into a `List<Number>`: a list of Longs is copied whole, while a cast to Integer throws at its first element |
| PecsRule.SelfCopyThrowsUnlessEmpty | src/main/java/com/javagenericsdemo/Main_PecsRule.java:139-142 | copying a list into itself completes exactly when the list is empty |
| PecsRule.LessonCopiesComplete | src/main/java/com/javagenericsdemo/Main_PecsRule.java:49-86 | each copy the lesson makes completes, and the two producer copies give the integers followed by the doubles |
| PecsRule.CopyFromSourceDemo | src/main/java/com/javagenericsdemo/Main_PecsRule.java:61-63 | `targetNumbers` ends as `[1, 2, 3, 1.1, 2.2, 3.3]` |
| PecsRule.CopyToDestinationDemo | src/main/java/com/javagenericsdemo/Main_PecsRule.java:70-71 | `numbers` and `objects` both end as `[1, 2, 3]` |
| PecsRule.CopyNumbersDemo | src/main/java/com/javagenericsdemo/Main_PecsRule.java:84-86 | `results` ends as `[1, 2, 3, 1.1, 2.2, 3.3]` |
| PecsRule.GettersReturnConstructorArguments | src/main/java/com/ocp/generics/Main_PecsRule.java:149-165 | `getName` and `getAge` return the constructor arguments, and `toString` is `name(age)` |
| PecsRule.Person.ToString | src/main/java/com/javagenericsdemo/Main_PecsRule.java:257-259 | `toString` is the name, an opening parenthesis, the age's `Integer.toString` (digits with no leading zero, parsing back to the age) and a closing parenthesis; the copy in the other package (src/main/java/com/ocp/generics/Main_PecsRule.java:163-165) has the same code |
| PecsRule.AgeCompare | src/main/java/com/ocp/generics/Main_PecsRule.java:173-178 | the age comparator is negative, zero or positive exactly when the first age is less than, equal to or greater than the second; the copy in the other package (src/main/java/com/javagenericsdemo/Main_PecsRule.java:230) has the same code |
| PecsRule.AgeCompareAntisymmetric | src/main/java/com/ocp/generics/Main_PecsRule.java:173-178 | swapping the arguments negates the result |
| PecsRule.AgeCompareTransitive | src/main/java/com/ocp/generics/Main_PecsRule.java:173-178 | the order is transitive |
| PecsRule.AgeCompareConsistent | src/main/java/com/ocp/generics/Main_PecsRule.java:173-178 | people the comparator calls equal compare alike against everyone else |
| PecsRule.LessonPeopleOrder | src/main/java/com/javagenericsdemo/Main_PecsRule.java:93-96 | Bob(25) sorts before Alice(30), who sorts before Charlie(35), and Alice prints as `Alice(30)` |
| TypeInference.CreateList | src/main/java/com/javagenericsdemo/Main_TypeInference.java:167-173 | `createList` returns a fresh list holding the arguments in argument order, with the same count; no arguments give an empty list; the copy in the other package (src/main/java/com/ocp/generics/Main_TypeInference.java:107-113) has the same code |
| TypeInference.Concatenate | src/main/java/com/javagenericsdemo/Main_TypeInference.java:202-217 | `concatenate` succeeds exactly when both arguments are non-null and an Integer first argument has an Integer second. It gives the 32-bit sum for an Integer first, and the two texts joined otherwise. A ClassCastException happens exactly for an Integer first with a non-null non-Integer second; every other failure is a NullPointerException; the copy in the other package (src/main/java/com/ocp/generics/Main_TypeInference.java:125-135) has the same code |
| TypeInference.ConcatenateStrings | src/main/java/com/javagenericsdemo/Main_TypeInference.java:203-207 | a String first argument gives the two texts joined |
| TypeInference.ConcatenateIntegersIsSum | src/main/java/com/javagenericsdemo/Main_TypeInference.java:208-212 | two Integers give an Integer equal to their sum modulo 2^32, and to the exact sum when it fits in an `int` |
| TypeInference.ConcatenateIntegersCommute | src/main/java/com/javagenericsdemo/Main_TypeInference.java:208-212 | the Integer branch does not depend on argument order |
| TypeInference.ConcatenateIntegersOverflow | src/main/java/com/javagenericsdemo/Main_TypeInference.java:211 | `Integer.MAX_VALUE + 1` wraps to `Integer.MIN_VALUE` |
| TypeInference.ConcatenateIntegerWithOther | src/main/java/com/javagenericsdemo/Main_TypeInference.java:211 | an Integer first with a non-Integer second throws: a ClassCastException at the cast, or a NullPointerException when unboxing a null |
| TypeInference.ConcatenateNullFirst | src/main/java/com/javagenericsdemo/Main_TypeInference.java:214-216 | a null first argument throws a NullPointerException at `first.toString()` |
| TypeInference.ConcatenateFallbackIsStringBranch | src/main/java/com/javagenericsdemo/Main_TypeInference.java:214-217 | for any other class the fallback gives what the String branch gives for the first argument's text |
| TypeInference.ConcatenateExamples | src/main/java/com/ocp/generics/Main_TypeInference.java:55-58 | "Hello" + "World" is "HelloWorld", "Hello" + " World" is "Hello World", and 5 + 10 is 15 |
| TypeInference.ConcatenateWithSeparator | src/main/java/com/javagenericsdemo/Main_TypeInference.java:243-245 | the result is the first text, then the separator, then the second text (length and the three slices stated); either element null gives a NullPointerException |
| TypeInference.SeparatorFreeIsConcatenate | src/main/java/com/javagenericsdemo/Main_TypeInference.java:243-245 | with an empty separator it agrees with `concatenate` for every first argument that is not an Integer, failures included |
| TypeInference.ConcatenateWithSeparatorExample | src/main/java/com/javagenericsdemo/Main_TypeInference.java:101 | `("Count", 5, " is: ")` gives "Count is: 5" |
| TypeInference.EmptyList | src/main/java/com/javagenericsdemo/Main_TypeInference.java:267-269 | `emptyList()` returns a fresh list of length 0; the copy in the other package (src/main/java/com/ocp/generics/Main_TypeInference.java:144-146) has the same code |
| TypeInference.EmptyListsAreIndependent | src/main/java/com/ocp/generics/Main_TypeInference.java:65-75 | two results of the factory are separate lists: each holds only what was added to it |
| TypeInference.CreateListExamples | src/main/java/com/javagenericsdemo/Main_TypeInference.java:76-84 | the name and number lists come back in argument order, with first elements of class String and Integer |
| InstanceofWithGeneric.GenericTypeChecker.constructor | src/main/java/com/javagenericsdemo/Main_WhyCannotUseInstanceofWithGeneric.java:172-174 | the checker keeps the type token it is given, and the token never changes afterwards; the copy in the other package (src/main/java/com/ocp/generics/Main_WhyCannotUseInstanceofWithGeneric.java:120-122) has the same code |
| InstanceofWithGeneric.GenericTypeChecker.CheckListType | src/main/java/com/javagenericsdemo/Main_WhyCannotUseInstanceofWithGeneric.java:196-204 | false on an empty list; otherwise true exactly when the first element is non-null and its class inherits from the token; the list is only read; the copy in the other package (src/main/java/com/ocp/generics/Main_WhyCannotUseInstanceofWithGeneric.java:130-137) has the same code |
| InstanceofWithGeneric.CheckerIsFirstElementTest | src/main/java/com/javagenericsdemo/Main_WhyCannotUseInstanceofWithGeneric.java:85-89 | the token check answers exactly what the first workaround (non-empty and first element `instanceof`) answers |
| InstanceofWithGeneric.OnlyFirstElementDecides | src/main/java/com/javagenericsdemo/Main_WhyCannotUseInstanceofWithGeneric.java:203 | whatever follows the first element is never looked at |
| InstanceofWithGeneric.MixedListPassesStringCheck | src/main/java/com/javagenericsdemo/Main_WhyCannotUseInstanceofWithGeneric.java:183-187 | `["Hello", 42]` passes the String check although 42 is no String |
| InstanceofWithGeneric.NullFirstElementFails | src/main/java/com/javagenericsdemo/Main_WhyCannotUseInstanceofWithGeneric.java:203 | a null first element fails every check |
| InstanceofWithGeneric.CheckPassesUpward | src/main/java/com/javagenericsdemo/Main_WhyCannotUseInstanceofWithGeneric.java:203 | a list that passes a checker passes every checker for a superclass of its token |
| InstanceofWithGeneric.OtherClassesAreKeptApart | src/main/java/com/javagenericsdemo/Main_WhyCannotUseInstanceofWithGeneric.java:172-174 | a checker for a class outside the lessons accepts only objects of that class: a `Boolean` token rejects a `Character`, a `Long` test rejects a `Short`, and a `Number` test accepts a `Long` |
| InstanceofWithGeneric.ObjectCheckerAcceptsNonNullFirst | src/main/java/com/javagenericsdemo/Main_WhyCannotUseInstanceofWithGeneric.java:203 | an Object checker accepts exactly the lists whose first element is non-null |
| InstanceofWithGeneric.TypeTokenExamples | src/main/java/com/javagenericsdemo/Main_WhyCannotUseInstanceofWithGeneric.java:82-97 | the three demo checks answer true, false and true; the copy in the other package (src/main/java/com/ocp/generics/Main_WhyCannotUseInstanceofWithGeneric.java:72-78) has the same code |
| InstanceofWithGeneric.GuardedCastExample | src/main/java/com/ocp/generics/Main_WhyCannotUseInstanceofWithGeneric.java:91-95 | the guarded check holds for `["Hello"]`, and the element then read is "Hello" |
| SuperWildcard.AddNumbers | src/main/java/com/javagenericsdemo/Main_SuperWildcard.java:128-140 | `addNumbers` appends exactly 1, 2, 3 at the end and counts three modifications; the index-0 read cannot fail and yields the old first element, or 1 if the list was empty; the copy in the other package (src/main/java/com/ocp/generics/Main_SuperWildcard.java:89-98) has the same code |
| SuperWildcard.AddNumbersKeepsPrefix | src/main/java/com/javagenericsdemo/Main_SuperWildcard.java:128-133 | the list grows by 3, every old element keeps its index and value, and the tail is 1, 2, 3 |
| SuperWildcard.AddedNumbersFitAnySuperOfInteger | src/main/java/com/javagenericsdemo/Main_SuperWildcard.java:128-133 | everything `addNumbers` adds is an instance of every superclass of Integer |
| SuperWildcard.AddNumbersExample | src/main/java/com/javagenericsdemo/Main_SuperWildcard.java:41-105 | the element read back is 10; `integers`, `numbers` and `objects` end as `[1, 2, 3]`, `[10, 42, 1, 2, 3]` and `[1, 2, 3, 999]`; the Object read back is the Integer 1 |
| SuperWildcard.Classify | src/main/java/com/ocp/generics/Main_SuperWildcard.java:112-120 | an element is reported as an Integer exactly when it is one, with its 32-bit square; as a Double exactly when it is one; anything else, null included, by its text |
| SuperWildcard.IntegerSquareWraps | src/main/java/com/ocp/generics/Main_SuperWildcard.java:115 | the square is exact for 46340 and wraps for 46341 |
| SuperWildcard.IntegerAndDoubleDisjoint | src/main/java/com/ocp/generics/Main_SuperWildcard.java:114-117 | no value is both an Integer and a Double, so the order of the two tests does not matter |
| SuperWildcard.ProcessElements | src/main/java/com/ocp/generics/Main_SuperWildcard.java:106-122 | `processElements` appends 42 and 3.14 at the end of the list; the report has one entry per element of the list, in order, each its classification |
| SuperWildcard.ProcessElementsExample | src/main/java/com/ocp/generics/Main_SuperWildcard.java:26-80 | the object list ends as `[10, 20, 1, 2, 3]` and the number list as `[1, 2, 3, 42, 3.14]`; the report gives the squares 1, 4, 9 and 1764, then the Double |
| AddWithExtends.AnimalHierarchy | src/main/java/com/javagenericsdemo/Main_WhyCannotAddWithExtends.java:206-273 | Dog and Cat are Mammals; Mammal and Bird are Animals; Bird is no Mammal; Dog and Cat are unrelated; the relation is reflexive; the copy in the other package (src/main/java/com/ocp/generics/Main_WhyCannotAddWithExtends.java:148-191) has the same code |
| AddWithExtends.EveryAnimalIsAnAnimal | src/main/java/com/javagenericsdemo/Main_WhyCannotAddWithExtends.java:206-273 | every animal is an Animal, and it is a Mammal exactly when it is a Mammal, Dog or Cat |
| AddWithExtends.AnimalToString | src/main/java/com/javagenericsdemo/Main_WhyCannotAddWithExtends.java:213-216 | `toString` is the simple class name, then the name in parentheses, e.g. `Dog(Fido)`; the copy in the other package (src/main/java/com/ocp/generics/Main_WhyCannotAddWithExtends.java:155-158) has the same code |
| AddWithExtends.AddMammals | src/main/java/com/javagenericsdemo/Main_WhyCannotAddWithExtends.java:190-196 | `addMammals` appends exactly `Dog(Buddy)` then `Cat(Felix)` and keeps the earlier elements; the copy in the other package (src/main/java/com/ocp/generics/Main_WhyCannotAddWithExtends.java:140-144) has the same code |
| AddWithExtends.MammalsAddedAreMammals | src/main/java/com/javagenericsdemo/Main_WhyCannotAddWithExtends.java:192-195 | everything `addMammals` adds is a Mammal and no Bird, and fits any list whose element class is Mammal or above |
| AddWithExtends.AddMammalsExample | src/main/java/com/javagenericsdemo/Main_WhyCannotAddWithExtends.java:127-129 | an empty `List<Animal>` ends as `[Dog(Buddy), Cat(Felix)]` |
| AddWithExtends.Bark | src/main/java/com/javagenericsdemo/Main_WhyCannotAddWithExtends.java:254-256 | `bark()` prints the dog's `toString` followed by " says: Woof!"; the copy in the other package (src/main/java/com/ocp/generics/Main_WhyCannotAddWithExtends.java:178-180) has the same code |
| AddWithExtends.Barks | src/main/java/com/javagenericsdemo/Main_WhyCannotAddWithExtends.java:254-256 | one bark line per dog |
| AddWithExtends.BarksAt | src/main/java/com/javagenericsdemo/Main_WhyCannotAddWithExtends.java:254-256 | line i is the bark of dog i, i.e. `Dog(name) says: Woof!` |
| AddWithExtends.ProcessDogs | src/main/java/com/javagenericsdemo/Main_WhyCannotAddWithExtends.java:167-173 | `processDogs` gives the barks and outcome of `DogsRun`: the leading Dogs bark in order, and the first non-Dog ends the loop with a ClassCastException, or with a NullPointerException for null; the copy in the other package (src/main/java/com/ocp/generics/Main_WhyCannotAddWithExtends.java:128-132) has the same code |
| AddWithExtends.ProcessDogsSucceedsIffAllDogs | src/main/java/com/ocp/generics/Main_WhyCannotAddWithExtends.java:128-132 | `processDogs` completes exactly when every element is a Dog, and then every dog barks once, in order |
| AddWithExtends.ProcessDogsStopsAtFirstNonDog | src/main/java/com/javagenericsdemo/Main_WhyCannotAddWithExtends.java:167-173 | a failed run has barked once for each Dog before the first non-Dog, in order, and throws the exception that element causes |
| AddWithExtends.LessonBarks | src/main/java/com/javagenericsdemo/Main_WhyCannotAddWithExtends.java:254-256 | Fido and Rex bark as `Dog(Fido) says: Woof!` and `Dog(Rex) says: Woof!` |
| AddWithExtends.RawAddExample | src/main/java/com/javagenericsdemo/Main_WhyCannotAddWithExtends.java:103-118 | the raw add succeeds and leaves `dogs` as Fido, Rex and a Cat; `processDogs` then barks twice and throws a ClassCastException at the Cat |

## Left out

- Console output: every `System.out.println` in the `main` methods and in `printList`, `printAnimals`, `printNumberDetails`, `printWildcardList` and `printObjectList`. These only print. Values the demos print are returned instead (`bark` returns its line).
- Compile-time rules, shown in the source as commented-out lines: the wildcard add and read restrictions, `instanceof List<String>`, and overloading by erasure. These belong to the Java compiler, not to the code. The model admits raw-list pollution, which the compiler would only warn about.
- Floating point: `sumNumbers`, `doubleValue()` and the Double squaring in `processElements`. A Double is kept as its text. `SuperWildcard.Classify` reports a Double without its square.
- Library sorting: `sortByAge` delegates to `List.sort`, which is not part of this model. Only the comparator is modelled, with the comparator-contract lemmas.
- Reflection: `getClass().getName()`, `getSimpleName()` on lists and `hashCode()`. The class of a value stands in where a lesson asks for it, as in `SimpleName` for `toString`.
- `Arrays.asList` fixed-size lists: the lessons only read them, or copy them into an `ArrayList`. Both become `JavaCollections.ArrayList.Of`, or a `seq` for the read-only helpers.
- Null list arguments and null names: an `ArrayList` or `seq` is never null, so the NullPointerException that Java throws for a null list is not modelled. This affects `InstanceofWithGeneric.GenericTypeChecker.CheckListType` (its `list.isEmpty()`), `GenericMethodWithWildcard.CountGreaterThan`, `GenericMethodWithWildcard.Exchange`, `GenericMethodWithWildcard.Transform`, `GenericMethodWithWildcard.Filter`, `PecsRule.CopyFromSource`, `PecsRule.CopyToDestination`, `PecsRule.CopyNumbers`, `SuperWildcard.AddNumbers`, `AddWithExtends.AddMammals`, `AddWithExtends.ProcessDogs` and `SuperWildcard.ProcessElements`. The one case where Java completes, an empty source copied into a null destination, is not modelled either. A `Person` or animal name is a Dafny string, so a null name, which Java prints as "null(30)" or "Dog(null)", is not modelled.
- `GenericMethodWithWildcard.TransformDemo`: the length of a string is its number of Dafny characters, while `String::length` counts UTF-16 code units. The two differ only outside the Basic Multilingual Plane, which the lesson's names do not reach.
- `TypeInference.ConcatenateWithSeparator`: a null separator is not modelled, because the separator is a Dafny string. Java would print it as "null".
- `TypeInference.CreateList`: a null varargs array is not modelled; the arguments are always a sequence.
- `InstanceofWithGeneric.GenericTypeChecker.constructor`: a null type token is not modelled; the token is always a class.
- `GenericMethodWithWildcard.Exchange`: positions are unbounded integers, not `int`. Out-of-range handling is the same either way.
- `exchangeHelper` is folded into `GenericMethodWithWildcard.Exchange`, because `exchange` only forwards to it. Its unchecked `(T)` and `(U)` casts are erased and cannot fail, so they do not appear.
- The unchecked `(T)` casts on the results of `concatenate`: they are erased, so they cannot fail inside the helpers. A caller's own cast of the result is not modelled.
- The diamond-operator, `var` and `Map` demonstrations in the type-inference `main`: they only create and print lists.
- `Main_UnboundedWildcard`, `Main_UnboundedWildcardPitfall`, `Main_ExtendsWildcard` and `Main_TypeErasureExample` only print, sum Doubles, or hold trivial getters; they are not part of this model.
- `GenericMethodWithWildcard.CountGreaterThan`: `compareTo` is a parameter, modelled as a total function that never throws, so an item whose `compareTo` throws (a null item, say) and stops the loop is not modelled. The lemmas fix it to `Integer.compareTo`, and the Double call is not modelled.
- `GenericMethodWithWildcard.Transform`: the `Function` is modelled as a total function that never throws, so an `apply` that throws partway through the list is not modelled.
- `GenericMethodWithWildcard.Filter`: the `Predicate` is modelled as a total function that never throws, so a `test` that throws partway through the list is not modelled.
- `JavaRuntime.IsInstance`: interfaces (`CharSequence`, `Comparable`, ...) and class hierarchies outside the lessons are not modelled. Such a class is a direct subclass of `Object` or of `Number`, so `InstanceofWithGeneric.GenericTypeChecker.CheckListType` with an interface token, or with a token for an intermediate class of another library, cannot be expressed.
- Concurrency: none in the source. The only ConcurrentModificationException modelled is the fail-fast iterator of a list changed during its own for-each loop.
