/**
  The lesson on why `List<? extends Animal>` accepts no `add`: the Animal
  hierarchy (Mammal and Bird under Animal, Dog and Cat under Mammal) with its
  `toString`, `addMammals`, which writes Mammals into a
  `List<? super Mammal>`, and `processDogs`, whose for-each loop casts every
  element to Dog, so that a Cat slipped in through a raw list makes it throw.
*/
module AddWithExtends {
  import opened JavaRuntime
  import opened JavaCollections

  // ---------------------------------------------------------------------------
  // The hierarchy and toString

  /** The hierarchy the lesson draws, and the facts that rule a Bird out of a Mammal list. */
  lemma AnimalHierarchy()
    ensures SubclassOf(DogClass, MammalClass) && SubclassOf(CatClass, MammalClass)
    ensures SubclassOf(MammalClass, AnimalClass) && SubclassOf(BirdClass, AnimalClass)
    ensures SubclassOf(DogClass, AnimalClass) && SubclassOf(CatClass, AnimalClass)
    ensures !SubclassOf(BirdClass, MammalClass) && !SubclassOf(MammalClass, BirdClass)
    ensures !SubclassOf(CatClass, DogClass) && !SubclassOf(DogClass, CatClass)
    ensures !SubclassOf(AnimalClass, MammalClass)
    ensures forall c :: SubclassOf(c, c)
  {
  }

  /** Every animal, whatever its concrete class, is an Animal; only Dogs and Cats (and Mammals) are Mammals. */
  lemma EveryAnimalIsAnAnimal(k: AnimalKind, name: string)
    ensures IsInstance(AnimalClass, AnimalObj(k, name))
    ensures IsInstance(MammalClass, AnimalObj(k, name)) <==> k in {Mammal, Dog, Cat}
  {
  }

  /**
    `toString()`: the simple class name, then the name in parentheses, e.g.
    `Dog(Fido)`. Documentation only: `Text` states the general clause in its
    own contract; the instance is the lesson's example.
  */
  lemma AnimalToString(k: AnimalKind, name: string)
    ensures Text(AnimalObj(k, name)) == SimpleName(k) + "(" + name + ")"
    ensures Text(AnimalObj(Dog, "Fido")) == "Dog(Fido)"
  {
    assert "Dog" + "(" + "Fido" + ")" == "Dog(Fido)";
  }

  // ---------------------------------------------------------------------------
  // addMammals

  /** What `addMammals` appends: a Dog named Buddy, then a Cat named Felix. */
  const MammalsAdded: seq<JValue> := [AnimalObj(Dog, "Buddy"), AnimalObj(Cat, "Felix")]

  /** `addMammals(List<? super Mammal> list)`. */
  method AddMammals(list: ArrayList)
    modifies list
    ensures list.elems == old(list.elems) + MammalsAdded
    ensures list.modCount == old(list.modCount) + 2
  {
    var _ := list.Add(AnimalObj(Dog, "Buddy"));
    var _ := list.Add(AnimalObj(Cat, "Felix"));
  }

  /**
    Everything `addMammals` adds is a Mammal and no Bird, so it fits any list
    whose element class is Mammal or a superclass of it.
  */
  lemma MammalsAddedAreMammals(cls: JClass)
    requires SubclassOf(MammalClass, cls)
    ensures forall v :: v in MammalsAdded ==> IsInstance(MammalClass, v) && !IsInstance(BirdClass, v)
    ensures forall v :: v in MammalsAdded ==> IsInstance(cls, v)
  {
    forall v | v in MammalsAdded
      ensures IsInstance(cls, v)
    {
      InstanceOfSuperclass(MammalClass, cls, v);
    }
  }

  /** The lesson's call on an empty `List<Animal>` prints `[Dog(Buddy), Cat(Felix)]`. */
  method AddMammalsExample() returns (animalList: seq<JValue>)
    ensures animalList == [AnimalObj(Dog, "Buddy"), AnimalObj(Cat, "Felix")]
    ensures Text(animalList[0]) == "Dog(Buddy)" && Text(animalList[1]) == "Cat(Felix)"
  {
    var list := new ArrayList();
    AddMammals(list);
    animalList := list.elems;
    assert "Dog" + "(" + "Buddy" + ")" == "Dog(Buddy)";
    assert "Cat" + "(" + "Felix" + ")" == "Cat(Felix)";
  }

  // ---------------------------------------------------------------------------
  // processDogs

  /** The line `bark()` prints for a dog: its `toString`, then " says: Woof!". */
  function Bark(v: JValue): (r: string)
    ensures |r| == |Text(v)| + 12
    ensures r[..|Text(v)|] == Text(v)
    ensures r[|Text(v)|..] == " says: Woof!"
  {
    Text(v) + " says: Woof!"
  }

  /** The lines a run of dogs prints, one bark per element, in order. */
  function Barks(s: seq<JValue>): (r: seq<string>)
    ensures |r| == |s|
  {
    if s == [] then [] else Barks(s[..|s| - 1]) + [Bark(s[|s| - 1])]
  }

  /** One more dog, one more bark at the end. */
  lemma BarksSnoc(s: seq<JValue>, i: nat)
    requires i < |s|
    ensures Barks(s[..i + 1]) == Barks(s[..i]) + [Bark(s[i])]
  {
    assert s[..i + 1][..i] == s[..i];
  }

  /** Element `i` barks on line `i`. */
  lemma {:induction false} BarksAt(s: seq<JValue>)
    ensures forall i :: 0 <= i < |s| ==> Barks(s)[i] == Bark(s[i])
  {
    if s != [] {
      BarksAt(s[..|s| - 1]);
    }
  }

  /**
    `for (Dog dog : dogs) dog.bark();` over a list holding `s`: the leading
    Dogs bark in order; the first element that is not a Dog stops the loop,
    with a ClassCastException from the cast or, for null (which the cast
    lets through), a NullPointerException from `bark()`.
  */
  function DogsRun(s: seq<JValue>): (r: (seq<string>, Outcome))
  {
    var k := PrefixWhile(s, InstanceTest(DogClass));
    (Barks(s[..k]),
     if k == |s| then Normal else Threw(if s[k].Null? then NullPointerException else ClassCastException))
  }

  /** `processDogs(dogs)`: the barks are returned in place of being printed. */
  method ProcessDogs(dogs: ArrayList) returns (barks: seq<string>, outcome: Outcome)
    ensures (barks, outcome) == DogsRun(dogs.elems)
  {
    var s := dogs.elems;
    barks := [];
    var i := 0;
    while i != |s|
      invariant i <= PrefixWhile(s, InstanceTest(DogClass))
      invariant barks == Barks(s[..i])
    {
      var dog := CheckCast(DogClass, s[i]);
      if dog.Err? || dog.value.Null? {
        DogsRunAt(s, i);
        return barks, Threw(if dog.Err? then dog.ex else NullPointerException);
      }
      assert IsInstance(DogClass, s[i]);
      PrefixWhileExtends(s, InstanceTest(DogClass), i);
      BarksSnoc(s, i);
      barks := barks + [Bark(s[i])];
      i := i + 1;
    }
    DogsRunAt(s, i);
    outcome := Normal;
  }

  /** Where a run that has got past `i` elements without trouble ends, if it ends at `i`. */
  lemma DogsRunAt(s: seq<JValue>, i: nat)
    requires i <= PrefixWhile(s, InstanceTest(DogClass))
    requires i < |s| ==> !IsInstance(DogClass, s[i])
    ensures DogsRun(s) == (Barks(s[..i]),
      if i == |s| then Normal else Threw(if s[i].Null? then NullPointerException else ClassCastException))
  {
    assert i < |s| ==> !InstanceTest(DogClass)(s[i]);
  }

  /** `processDogs` completes exactly when every element is a (non-null) Dog, and then every dog barks once, in order. */
  lemma ProcessDogsSucceedsIffAllDogs(s: seq<JValue>)
    ensures DogsRun(s).1 == Normal <==> forall i :: 0 <= i < |s| ==> IsInstance(DogClass, s[i])
    ensures DogsRun(s).1 == Normal ==> |DogsRun(s).0| == |s|
    ensures DogsRun(s).1 == Normal ==> forall i :: 0 <= i < |s| ==> DogsRun(s).0[i] == Bark(s[i])
  {
    var k := PrefixWhile(s, InstanceTest(DogClass));
    if k < |s| {
      assert !InstanceTest(DogClass)(s[k]);
    } else {
      assert s[..k] == s;
      BarksAt(s);
    }
  }

  /** A failed run has barked exactly for the Dogs before the first non-Dog, and names the exception that element causes. */
  lemma ProcessDogsStopsAtFirstNonDog(s: seq<JValue>, j: nat)
    requires j < |s| && !IsInstance(DogClass, s[j])
    requires forall i :: 0 <= i < j ==> IsInstance(DogClass, s[i])
    ensures |DogsRun(s).0| == j
    ensures forall i :: 0 <= i < j ==> DogsRun(s).0[i] == Bark(s[i])
    ensures DogsRun(s).1 == Threw(if s[j].Null? then NullPointerException else ClassCastException)
  {
    BarksAt(s[..j]);
  }

  /** The two barks the lesson's dogs give. */
  lemma LessonBarks()
    ensures Bark(AnimalObj(Dog, "Fido")) == "Dog(Fido) says: Woof!"
    ensures Bark(AnimalObj(Dog, "Rex")) == "Dog(Rex) says: Woof!"
  {
    assert "Dog" + "(" + "Fido" + ")" + " says: Woof!" == "Dog(Fido) says: Woof!";
    assert "Dog" + "(" + "Rex" + ")" + " says: Woof!" == "Dog(Rex) says: Woof!";
  }

  /**
    The lesson's raw-type demonstration: a Cat added to `dogs` through a raw
    alias is accepted; `processDogs` then barks for Fido and Rex and throws a
    ClassCastException at the Cat.
  */
  method RawAddExample() returns (added: bool, dogsNow: seq<JValue>, barks: seq<string>, outcome: Outcome)
    ensures added
    ensures dogsNow == [AnimalObj(Dog, "Fido"), AnimalObj(Dog, "Rex"), AnimalObj(Cat, "Simba")]
    ensures |dogsNow| == 3 && IsInstance(CatClass, dogsNow[2]) && !IsInstance(DogClass, dogsNow[2])
    ensures barks == ["Dog(Fido) says: Woof!", "Dog(Rex) says: Woof!"]
    ensures outcome == Threw(ClassCastException)
  {
    var dogs := new ArrayList.Of([AnimalObj(Dog, "Fido"), AnimalObj(Dog, "Rex")]);
    var rawDogs := dogs;
    added := rawDogs.Add(AnimalObj(Cat, "Simba"));
    dogsNow := dogs.elems;
    ProcessDogsStopsAtFirstNonDog(dogsNow, 2);
    LessonBarks();
    barks, outcome := ProcessDogs(dogs);
    assert barks[0] == Bark(AnimalObj(Dog, "Fido")) && barks[1] == Bark(AnimalObj(Dog, "Rex"));
  }
}
