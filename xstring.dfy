/** `src/xstring.c`: an append-only, NUL-terminated character buffer that is
    reallocated one character larger on every append. */
module XStrings {

  class XString {
    /** The heap buffer; `str[length]` is its NUL terminator. */
    var str: array<char>
    var length: nat

    ghost predicate Valid()
      reads this, str
    {
      str.Length == length + 1 && str[length] == '\0' &&
      forall i :: 0 <= i < length ==> str[i] != '\0'
    }

    /** The characters before the terminator, i.e. `str` read as a C string. */
    function Str(): (s: string)
      reads this, str
      requires Valid()
      ensures |s| == length
      ensures forall i :: 0 <= i < |s| ==> s[i] != '\0'
    {
      str[..length]
    }

    /** `XString_Create` */
    constructor ()
      ensures Valid() && fresh(str)
      ensures length == 0 && Str() == []
    {
      length := 0;
      str := new char[1](_ => '\0');
    }

    /** `XString_Append`: allocate `length + 2` characters, `strcpy` the old
        contents, write `c` and a new terminator, and swap the buffers. */
    method Append(c: char)
      requires Valid() && c != '\0'
      modifies this
      ensures Valid() && fresh(str)
      ensures length == old(length) + 1
      ensures Str() == old(Str()) + [c]
    {
      var ptr := new char[length + 2];
      // strcpy: copy up to and including the terminator
      var i := 0;
      while str[i] != '\0'
        invariant Valid() && ptr.Length == length + 2
        invariant str == old(str) && length == old(length)
        invariant 0 <= i <= length
        decreases length - i
        invariant forall k :: 0 <= k < i ==> ptr[k] == str[k]
      {
        ptr[i] := str[i];
        i := i + 1;
      }
      ptr[i] := '\0';
      ptr[length] := c;
      ptr[length + 1] := '\0';
      assert ptr[..length] == old(Str());
      str := ptr;
      length := length + 1;
    }

    /** `XString_Last`: the final character, or 0 on an empty buffer. */
    function Last(): (c: char)
      reads this, str
      requires Valid()
      ensures Str() == [] ==> c == '\0'
      ensures Str() != [] ==> c == Str()[|Str()| - 1]
    {
      if length >= 1 then str[length - 1] else '\0'
    }
  }
}
