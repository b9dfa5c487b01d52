/**
  `java.util.ArrayList` as the lessons use it. After erasure every list holds
  object references whatever its type argument, so one class serves
  `List<Integer>`, `List<Number>`, `List<Object>` and `List<Dog>` alike;
  the static element type shows up only as the casts a for-each loop inserts.
*/
module JavaCollections {
  import opened JavaRuntime

  class ArrayList {
    /** The elements, in index order. */
    var elems: seq<JValue>
    /**
      The count of structural modifications (`add`); the list's fail-fast
      iterator compares it with the value it saw when it was created.
    */
    var modCount: nat

    /** `new ArrayList<>()`. */
    constructor ()
      ensures elems == [] && modCount == 0
    {
      elems := [];
      modCount := 0;
    }

    /** `new ArrayList<>(Arrays.asList(e1, ..., en))`. */
    constructor Of(s: seq<JValue>)
      ensures elems == s && modCount == 0
    {
      elems := s;
      modCount := 0;
    }

    function Size(): nat
      reads this
    {
      |elems|
    }

    /** `get(index)`: the element, or an IndexOutOfBoundsException for any index outside `0 .. size-1`. */
    function Get(index: int): (r: Result<JValue>)
      reads this
      ensures r.Ok? <==> 0 <= index < |elems|
      ensures r.Ok? ==> r.value == elems[index]
      ensures r.Err? ==> r.ex == IndexOutOfBoundsException
    {
      if 0 <= index < |elems| then Ok(elems[index]) else Err(IndexOutOfBoundsException)
    }

    /** `add(x)`: appends and always answers true. */
    method Add(x: JValue) returns (added: bool)
      modifies this
      ensures added
      ensures elems == old(elems) + [x]
      ensures modCount == old(modCount) + 1
    {
      elems := elems + [x];
      modCount := modCount + 1;
      added := true;
    }

    /**
      `set(index, x)`: overwrites one slot and returns what it held; out of
      range it throws and changes nothing. Not a structural modification.
    */
    method Set(index: int, x: JValue) returns (r: Result<JValue>)
      modifies this
      ensures r == old(Get(index))
      ensures r.Ok? ==> elems == old(elems)[index := x]
      ensures r.Err? ==> elems == old(elems)
      ensures modCount == old(modCount)
    {
      r := Get(index);
      if r.Ok? {
        elems := elems[index := x];
      }
    }
  }
}
