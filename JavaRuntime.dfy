/**
  The slice of the Java runtime that the generics lessons rely on, stated once:
  32-bit `int` arithmetic, the class hierarchy seen by `instanceof` and
  `Class.isInstance`, runtime values after type erasure, checked casts,
  `toString`, `Integer.compare`, and the exceptions the helpers can throw.
*/
module JavaRuntime {

  /** Java's `int`: 32-bit two's complement. */
  newtype int32 = x: int | -0x8000_0000 <= x < 0x8000_0000

  const TwoTo32: int := 0x1_0000_0000

  /** Reduces a mathematical integer into the `int` range, as Java's int arithmetic does. */
  function Wrap32(x: int): (r: int32)
    ensures (r as int - x) % TwoTo32 == 0
    ensures -0x8000_0000 <= x < 0x8000_0000 ==> r as int == x
  {
    var m := (x + 0x8000_0000) % TwoTo32;
    assert x + 0x8000_0000 == TwoTo32 * ((x + 0x8000_0000) / TwoTo32) + m;
    (m - 0x8000_0000) as int32
  }

  /** `a + b` on Java ints: the true sum modulo 2^32, and the true sum when it fits. */
  function Add32(a: int32, b: int32): (r: int32)
    ensures (r as int - (a as int + b as int)) % TwoTo32 == 0
    ensures -0x8000_0000 <= a as int + b as int < 0x8000_0000 ==> r as int == a as int + b as int
  {
    Wrap32(a as int + b as int)
  }

  /** `a * b` on Java ints: the true product modulo 2^32, and the true product when it fits. */
  function Mul32(a: int32, b: int32): (r: int32)
    ensures (r as int - a as int * b as int) % TwoTo32 == 0
    ensures -0x8000_0000 <= a as int * b as int < 0x8000_0000 ==> r as int == a as int * b as int
  {
    Wrap32(a as int * b as int)
  }

  /**
    `a % b` on Java ints for a positive divisor: the remainder of division
    truncated toward zero, so it takes the sign of `a`. It differs from
    Dafny's Euclidean `%` only for a negative `a` that `b` does not divide.
  */
  function JavaRem(a: int32, b: int32): (r: int)
    requires b > 0
    ensures TruncQuot(a, b) * (b as int) + r == a as int
    ensures -(b as int) < r < b as int
    ensures r != 0 ==> (r < 0 <==> a < 0)
  {
    if a >= 0 then (a as int) % (b as int)
    else
      var n := -(a as int);
      assert n == (n / (b as int)) * (b as int) + n % (b as int);
      -(n % (b as int))
  }

  /** Java's remainders by 2 and 3: `-7 % 2` is -1 and `-5 % 3` is -2, where Dafny's `%` gives 1 and 1. */
  lemma JavaRemExamples()
    ensures JavaRem(7, 2) == 1 && JavaRem(-7, 2) == -1 && JavaRem(-4, 2) == 0
    ensures JavaRem(5, 3) == 2 && JavaRem(-5, 3) == -2
  {
  }

  /** `a / b` on Java ints for a positive divisor: the quotient truncated toward zero. */
  function TruncQuot(a: int32, b: int32): int
    requires b > 0
  {
    if a >= 0 then (a as int) / (b as int) else -((-(a as int)) / (b as int))
  }

  /** `Integer.compare(x, y)`: -1, 0 or 1 by the order of the two ints. */
  function IntegerCompare(x: int32, y: int32): (r: int)
    ensures r < 0 <==> x < y
    ensures r == 0 <==> x == y
    ensures r > 0 <==> x > y
    ensures -1 <= r <= 1
  {
    if x < y then -1 else if x == y then 0 else 1
  }

  // ---------------------------------------------------------------------------
  // Classes and the subclass relation

  /**
    The runtime classes the lessons use. `OtherNumberClass(n)` is the class
    named `n` among the other direct subclasses of `Number` (`Long`, `Short`,
    `Float`, `BigDecimal`, ...); `OtherClass(n)` is the class named `n` among
    the other direct subclasses of `Object` (`Boolean`, `Character`, ...).
  */
  datatype JClass =
    | ObjectClass | StringClass | NumberClass | IntegerClass | DoubleClass
    | OtherNumberClass(className: string)
    | AnimalClass | MammalClass | BirdClass | DogClass | CatClass
    | OtherClass(className: string)

  /** Distance from `Object` in the inheritance tree. */
  function Depth(c: JClass): nat {
    match c
    case ObjectClass => 0
    case StringClass | NumberClass | AnimalClass | OtherClass(_) => 1
    case IntegerClass | DoubleClass | OtherNumberClass(_) | MammalClass | BirdClass => 2
    case DogClass | CatClass => 3
  }

  /** The direct superclass (`extends`) of every class but `Object`. */
  function Superclass(c: JClass): (p: JClass)
    requires c != ObjectClass
    ensures Depth(p) + 1 == Depth(c)
  {
    match c
    case StringClass | NumberClass | AnimalClass | OtherClass(_) => ObjectClass
    case IntegerClass | DoubleClass | OtherNumberClass(_) => NumberClass
    case MammalClass | BirdClass => AnimalClass
    case DogClass | CatClass => MammalClass
  }

  /** `c` is `d` or inherits from it. */
  predicate SubclassOf(c: JClass, d: JClass)
    decreases Depth(c)
  {
    c == d || (c != ObjectClass && SubclassOf(Superclass(c), d))
  }

  /** Inheritance is transitive. */
  lemma {:induction false} SubclassTransitive(a: JClass, b: JClass, c: JClass)
    requires SubclassOf(a, b) && SubclassOf(b, c)
    ensures SubclassOf(a, c)
    decreases Depth(a)
  {
    if a != b {
      SubclassTransitive(Superclass(a), b, c);
    }
  }

  /** A strict subclass sits strictly deeper than its superclass. */
  lemma {:induction false} SubclassDeeper(c: JClass, d: JClass)
    requires SubclassOf(c, d)
    ensures Depth(d) <= Depth(c)
    ensures Depth(d) == Depth(c) ==> c == d
    decreases Depth(c)
  {
    if c != d {
      SubclassDeeper(Superclass(c), d);
    }
  }

  /** Two classes that each inherit from the other are the same class. */
  lemma SubclassAntisymmetric(c: JClass, d: JClass)
    requires SubclassOf(c, d) && SubclassOf(d, c)
    ensures c == d
  {
    SubclassDeeper(c, d);
    SubclassDeeper(d, c);
  }

  /** Every class inherits from `Object`. */
  lemma {:induction false} EverythingIsAnObject(c: JClass)
    ensures SubclassOf(c, ObjectClass)
    decreases Depth(c)
  {
    if c != ObjectClass {
      EverythingIsAnObject(Superclass(c));
    }
  }

  // ---------------------------------------------------------------------------
  // Runtime values

  /** The concrete classes of the animal lesson; `Animal` and `Mammal` are instantiable too. */
  datatype AnimalKind = Animal | Mammal | Bird | Dog | Cat

  /**
    An object reference after erasure. `Dbl` keeps the text `Double.toString`
    gives, since floating point is not modelled; `OtherNum` is a `Number`
    other than an `Integer` or a `Double` (a `Long`, say), and `Other` an
    object of a class outside `Number` and the lessons, both shown by their
    `toString` text.
  */
  datatype JValue =
    | Null
    | Str(s: string)
    | Int(i: int32)
    | Dbl(text: string)
    | OtherNum(className: string, numText: string)
    | AnimalObj(kind: AnimalKind, name: string)
    | Other(className: string, repr: string)

  function KindClass(k: AnimalKind): JClass {
    match k
    case Animal => AnimalClass
    case Mammal => MammalClass
    case Bird => BirdClass
    case Dog => DogClass
    case Cat => CatClass
  }

  /** `getClass()` of a non-null reference. */
  function ClassOf(v: JValue): JClass
    requires !v.Null?
  {
    match v
    case Str(_) => StringClass
    case Int(_) => IntegerClass
    case Dbl(_) => DoubleClass
    case OtherNum(n, _) => OtherNumberClass(n)
    case AnimalObj(k, _) => KindClass(k)
    case Other(n, _) => OtherClass(n)
    case Null => ObjectClass
  }

  /**
    `v instanceof C`, equivalently `C.class.isInstance(v)`: never true of null,
    true of an object and its own class, and, for `Object`, true of every
    object. Of the final classes and `Number` it holds exactly for their own
    values; of the animal classes exactly for the animals of that class or a
    subclass; of a class outside the lessons (`OtherClass(n)`,
    `OtherNumberClass(n)`) only for objects of that very class, so a
    `Boolean` test rejects a `Character` and a `Long` test a `Short`.
  */
  predicate IsInstance(cls: JClass, v: JValue): (r: bool)
    ensures v.Null? ==> !r
    ensures !v.Null? && ClassOf(v) == cls ==> r
    ensures cls == ObjectClass ==> (r <==> !v.Null?)
    ensures cls == StringClass ==> (r <==> v.Str?)
    ensures cls == IntegerClass ==> (r <==> v.Int?)
    ensures cls == DoubleClass ==> (r <==> v.Dbl?)
    ensures cls == NumberClass ==> (r <==> v.Int? || v.Dbl? || v.OtherNum?)
    ensures cls.OtherNumberClass? ==> (r <==> v.OtherNum? && v.className == cls.className)
    ensures cls.OtherClass? ==> (r <==> v.Other? && v.className == cls.className)
    ensures cls == AnimalClass ==> (r <==> v.AnimalObj?)
    ensures cls == MammalClass ==> (r <==> v.AnimalObj? && v.kind in {Mammal, Dog, Cat})
    ensures cls in {BirdClass, DogClass, CatClass} ==> (r <==> v.AnimalObj? && KindClass(v.kind) == cls)
  {
    if v.Null? then false
    else
      EverythingIsAnObject(ClassOf(v));
      SubclassOfUnfolded(ClassOf(v), cls);
      SubclassOf(ClassOf(v), cls)
  }

  /** `c` inherits from `d` exactly when `d` is `c` or one of the at most three classes above it. */
  lemma SubclassOfUnfolded(c: JClass, d: JClass)
    ensures SubclassOf(c, d) <==>
      c == d || (c != ObjectClass && (Superclass(c) == d ||
        (Superclass(c) != ObjectClass && (Superclass(Superclass(c)) == d ||
          (Superclass(Superclass(c)) != ObjectClass && Superclass(Superclass(Superclass(c))) == d)))))
  {
    if c != ObjectClass && Superclass(c) != ObjectClass && Superclass(Superclass(c)) != ObjectClass {
      assert Superclass(Superclass(Superclass(c))) == ObjectClass;
    }
  }

  /** An instance of a class is an instance of each of its superclasses. */
  lemma InstanceOfSuperclass(cls: JClass, sup: JClass, v: JValue)
    requires IsInstance(cls, v) && SubclassOf(cls, sup)
    ensures IsInstance(sup, v)
  {
    SubclassTransitive(ClassOf(v), cls, sup);
  }

  datatype JavaException =
    | ClassCastException
    | NullPointerException
    | IndexOutOfBoundsException
    | ConcurrentModificationException

  /** A value-returning step that either returns or throws. */
  datatype Result<T> = Ok(value: T) | Err(ex: JavaException)

  /** A void step that either completes or throws. */
  datatype Outcome = Normal | Threw(ex: JavaException)

  /** A reference cast `(C) v` passes null and instances of C. */
  predicate CastSucceeds(cls: JClass, v: JValue) {
    v.Null? || IsInstance(cls, v)
  }

  /** The reference cast `(C) v`. */
  function CheckCast(cls: JClass, v: JValue): (r: Result<JValue>)
    ensures r.Ok? <==> v.Null? || (!v.Null? && SubclassOf(ClassOf(v), cls))
    ensures r.Ok? ==> r.value == v
    ensures r.Err? ==> r.ex == ClassCastException
  {
    if CastSucceeds(cls, v) then Ok(v) else Err(ClassCastException)
  }

  /** The test a for-each loop over a `List<C>` applies to each element: its cast to C. */
  function CastTest(cls: JClass): JValue -> bool {
    (v: JValue) => CastSucceeds(cls, v)
  }

  /** `v instanceof C` as a first-class test. */
  function InstanceTest(cls: JClass): JValue -> bool {
    (v: JValue) => IsInstance(cls, v)
  }

  /**
    The number of leading elements of `s` that satisfy `ok`: where a loop that
    stops at the first offending element stops.
  */
  function PrefixWhile<T>(s: seq<T>, ok: T -> bool): (k: nat)
    ensures k <= |s|
    ensures forall i :: 0 <= i < k ==> ok(s[i])
    ensures k < |s| ==> !ok(s[k])
  {
    if s == [] || !ok(s[0]) then 0 else 1 + PrefixWhile(s[1..], ok)
  }

  /** A loop inside the passing prefix that passes element `i` is still inside it after `i`. */
  lemma PrefixWhileExtends<T>(s: seq<T>, ok: T -> bool, i: nat)
    requires i < |s| && i <= PrefixWhile(s, ok) && ok(s[i])
    ensures i + 1 <= PrefixWhile(s, ok)
  {
  }

  /** A loop inside the passing prefix that fails element `i` stops exactly at `i`. */
  lemma PrefixWhileStopsAtBound<T>(s: seq<T>, ok: T -> bool, i: nat)
    requires i < |s| && i <= PrefixWhile(s, ok) && !ok(s[i])
    ensures PrefixWhile(s, ok) == i
  {
  }

  // ---------------------------------------------------------------------------
  // toString

  function DigitChar(d: nat): (c: char)
    requires d < 10
    ensures '0' <= c <= '9'
    ensures c as int - '0' as int == d
  {
    ('0' as int + d) as char
  }

  /** The value of a string of decimal digits, most significant first. */
  function DigitsValue(s: string): int {
    if s == [] then 0 else DigitsValue(s[..|s| - 1]) * 10 + (s[|s| - 1] as int - '0' as int)
  }

  /** The value of an optionally signed decimal numeral: the inverse of `IntText`. */
  function ParseInt(s: string): int {
    if |s| > 0 && s[0] == '-' then -DigitsValue(s[1..]) else DigitsValue(s)
  }

  /** The decimal numeral of `n`: digits only, no leading zero, and it denotes `n`. */
  function DecimalDigits(n: nat): (r: string)
    ensures |r| >= 1
    ensures forall i :: 0 <= i < |r| ==> '0' <= r[i] <= '9'
    ensures r[0] == '0' <==> n == 0
    ensures DigitsValue(r) == n
    decreases n
  {
    if n < 10 then [DigitChar(n)]
    else
      var p := DecimalDigits(n / 10);
      var r := p + [DigitChar(n % 10)];
      assert r[..|r| - 1] == p;
      r
  }

  /**
    `Integer.toString`: a minus sign exactly for negatives, then decimal
    digits with no leading zero, and it parses back to `n`.
  */
  function IntText(n: int): (r: string)
    ensures |r| >= 1
    ensures r[0] == '-' <==> n < 0
    ensures forall i :: (if n < 0 then 1 else 0) <= i < |r| ==> '0' <= r[i] <= '9'
    ensures n < 0 ==> |r| >= 2 && r[1] != '0'
    ensures n >= 0 && |r| > 1 ==> r[0] != '0'
    ensures ParseInt(r) == n
  {
    if n < 0 then
      var d := DecimalDigits(-n);
      assert ("-" + d)[1..] == d;
      "-" + d
    else DecimalDigits(n)
  }

  /** `getClass().getSimpleName()` of the animal classes. */
  function SimpleName(k: AnimalKind): string {
    match k
    case Animal => "Animal"
    case Mammal => "Mammal"
    case Bird => "Bird"
    case Dog => "Dog"
    case Cat => "Cat"
  }

  /**
    `String.valueOf(v)`: the `toString` of a non-null reference, "null" for
    null. An explicit `v.toString()` call on null throws instead; callers
    check that themselves.
  */
  function Text(v: JValue): (r: string)
    ensures v.Null? ==> r == "null"
    ensures v.Str? ==> r == v.s
    ensures v.Int? ==> r == IntText(v.i as int) && ParseInt(r) == v.i as int
    ensures v.AnimalObj? ==> r == SimpleName(v.kind) + "(" + v.name + ")"
  {
    match v
    case Null => "null"
    case Str(s) => s
    case Int(i) => IntText(i as int)
    case Dbl(t) => t
    case OtherNum(_, t) => t
    case AnimalObj(k, n) => SimpleName(k) + "(" + n + ")"
    case Other(_, r) => r
  }
}
