/** `src/arr.c`: a growable array of pointers. The elements are kept as a
    sequence: the C code's `realloc` is what grows it. */
module Arrays {

  import opened Wrappers

  class Array<T> {
    var base: seq<T>
    var length: nat

    ghost predicate Valid()
      reads this
    {
      length == |base|
    }

    /** `Array_Create` */
    constructor ()
      ensures Valid()
      ensures length == 0 && base == []
    {
      base := [];
      length := 0;
    }

    /** `Array_Push`: grow by one slot and store `ptr` in it. */
    method Push(ptr: T)
      requires Valid()
      modifies this
      ensures Valid()
      ensures length == old(length) + 1
      ensures base == old(base) + [ptr]
      ensures At(old(length)) == Some(ptr)
      ensures forall i :: 0 <= i < old(length) ==> At(i) == old(At(i))
    {
      length := length + 1;
      base := base + [ptr];
    }

    /** `Array_At`: NULL past the end. The index is compared with the
        unsigned length, so a negative index converts to a huge unsigned
        value and also yields NULL. */
    function At(i: int): (r: Option<T>)
      reads this
      requires Valid()
      ensures r.Some? <==> 0 <= i < length
      ensures r.Some? ==> r.value == base[i]
    {
      if i < 0 || i >= length then None else Some(base[i])
    }
  }
}
