/** `StdinBuffer` (StdinBuffer.cs): a read cursor over the input string of a run. The interpreter
    model consumes its input as a string whose first character is taken by each `,`; `Remaining`
    is that string, and `TryRead` consumes it the same way. */
module Buffers {

  class StdinBuffer {
    /** The input, never written after construction. */
    const data: string
    /** The index of the next character to read. */
    var position: nat

    /** Lines 39-40: the position never passes the end of the data. */
    ghost predicate Valid()
      reads this
    {
      position <= |data|
    }

    /** The characters not read yet. */
    function Remaining(): (r: string)
      reads this
      requires Valid()
      ensures |r| == |data| - position
    {
      data[position..]
    }

    /** Lines 25-29: a buffer over `input`, nothing read yet. */
    constructor (input: string)
      ensures Valid() && data == input && position == 0
      ensures Remaining() == input && ToString() == input
    {
      data := input;
      position := 0;
    }

    /** Lines 37-60: reads the next character if there is one. */
    method TryRead() returns (ok: bool, c: char)
      requires Valid()
      modifies this
      ensures Valid()
      ensures ok <==> old(position) < |data|
      ensures ok ==> c == data[old(position)] && position == old(position) + 1
      ensures !ok ==> c == '\0' && position == old(position) == |data|
      ensures ok <==> old(Remaining()) != []
      ensures ok ==> c == old(Remaining())[0] && Remaining() == old(Remaining())[1..]
      ensures !ok ==> Remaining() == old(Remaining()) == []
      ensures ToString() == old(ToString())
    {
      var s := data;
      var p := position;
      if p < |s| {
        c := s[p];
        position := position + 1;
        return true, c;
      }
      c := '\0';
      return false, c;
    }

    /** Line 63: the data the buffer was made with, of which the characters not read yet are the
        tail. */
    function ToString(): (r: string)
      reads this
      ensures |r| == |data|
      ensures Valid() ==> r[position..] == Remaining()
    {
      data
    }
  }
}
