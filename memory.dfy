/** The interpreter's memory (`TouringMachineState`): a fixed-length row of cells and a pointer.
    The class itself is not part of the repository text; its members are modelled from their uses
    in Brainf_ckInterpreter.cs:322-378 and 420-451. `Tapes` holds memory snapshots as values,
    `Memory` the object the interpreter updates in place. */
module Tapes {

  /** `short.MaxValue`: the largest value a cell can hold. */
  const ShortMax := 32767
  /** `byte.MaxValue`. */
  const ByteMax := 255

  /** A cell value (the cells are unsigned 16-bit values capped at `short.MaxValue`). */
  type Cell = v: int | 0 <= v <= ShortMax

  /** The character a cell prints as (`Current.Character`). */
  function CellChar(v: Cell): char {
    v as char
  }

  datatype TapeValue = TapeValue(cells: seq<Cell>, ptr: nat)

  /** A memory snapshot whose pointer is on a cell. */
  type Tape = t: TapeValue | t.ptr < |t.cells| witness TapeValue([0], 0)

  /** `new TouringMachineState(size)`: `size` zeroed cells, pointer on the first. */
  function Fresh(size: nat): (t: Tape)
    requires size > 0
    ensures |t.cells| == size && t.ptr == 0 && forall k :: 0 <= k < size ==> t.cells[k] == 0
  {
    TapeValue(seq(size, _ => 0), 0)
  }

  function Current(t: Tape): Cell {
    t.cells[t.ptr]
  }

  predicate CanMoveNext(t: Tape) { t.ptr + 1 < |t.cells| }
  predicate CanMoveBack(t: Tape) { t.ptr > 0 }
  /** `CanIncrement` for a memory whose cells are bounded by `limit`. */
  predicate CanIncrement(t: Tape, limit: Cell) { Current(t) < limit }
  predicate CanDecrement(t: Tape) { Current(t) > 0 }
  predicate IsAtByteMax(t: Tape) { Current(t) == ByteMax }

  /** Writes `v` into the current cell (`Input`), leaving every other cell and the pointer alone. */
  function Store(t: Tape, v: Cell): (r: Tape)
    ensures r.ptr == t.ptr && |r.cells| == |t.cells| && Current(r) == v
    ensures forall k :: 0 <= k < |t.cells| && k != t.ptr ==> r.cells[k] == t.cells[k]
  {
    TapeValue(t.cells[t.ptr := v], t.ptr)
  }

  function MoveNext(t: Tape): (r: Tape)
    requires CanMoveNext(t)
    ensures r.cells == t.cells && r.ptr == t.ptr + 1
  {
    TapeValue(t.cells, t.ptr + 1)
  }

  function MoveBack(t: Tape): (r: Tape)
    requires CanMoveBack(t)
    ensures r.cells == t.cells && r.ptr == t.ptr - 1
  {
    TapeValue(t.cells, t.ptr - 1)
  }

  function Plus(t: Tape): (r: Tape)
    requires Current(t) < ShortMax
  {
    Store(t, Current(t) + 1)
  }

  function Minus(t: Tape): (r: Tape)
    requires CanDecrement(t)
  {
    Store(t, Current(t) - 1)
  }

  /** Moving right and back, or left and back, restores the snapshot. */
  lemma MoveInverse(t: Tape)
    ensures CanMoveNext(t) ==> CanMoveBack(MoveNext(t)) && MoveBack(MoveNext(t)) == t
    ensures CanMoveBack(t) ==> CanMoveNext(MoveBack(t)) && MoveNext(MoveBack(t)) == t
  {
  }

  /** Incrementing and decrementing undo each other, touching only the current cell. */
  lemma PlusMinusInverse(t: Tape)
    ensures Current(t) < ShortMax ==> CanDecrement(Plus(t)) && Minus(Plus(t)) == t
    ensures CanDecrement(t) ==> Current(Minus(t)) < ShortMax && Plus(Minus(t)) == t
  {
    if Current(t) < ShortMax {
      assert Minus(Plus(t)).cells == t.cells;
    }
    if CanDecrement(t) {
      assert Plus(Minus(t)).cells == t.cells;
    }
  }

}

module Memory {
  import opened Tapes

  /** The memory object: `cells` is the fixed buffer, `ptr` the position updated in place. */
  class MachineState {
    /** The cell bound `CanIncrement` tests against. */
    const limit: Cell
    const cells: array<Cell>
    var ptr: nat

    ghost predicate Valid()
      reads this
    {
      ptr < cells.Length
    }

    /** The snapshot of the memory. */
    function Value(): Tape
      requires Valid()
      reads this, cells
    {
      TapeValue(cells[..], ptr)
    }

    constructor(size: nat, limit: Cell)
      requires size > 0
      ensures Valid() && Value() == Fresh(size) && this.limit == limit
      ensures fresh(cells)
    {
      this.limit := limit;
      cells := new Cell[size](_ => 0);
      ptr := 0;
    }

    /** A memory holding the given snapshot (the state a session carries over). */
    constructor Restore(t: Tape, limit: Cell)
      ensures Valid() && Value() == t && this.limit == limit
      ensures fresh(cells)
    {
      this.limit := limit;
      cells := new Cell[|t.cells|](k requires 0 <= k < |t.cells| => t.cells[k]);
      ptr := t.ptr;
      new;
      assert cells[..] == t.cells;
    }

    function Current(): (v: Cell)
      requires Valid()
      reads this, cells
      ensures v == Tapes.Current(Value())
    {
      cells[ptr]
    }

    function CanMoveNext(): (b: bool)
      requires Valid()
      reads this, cells
      ensures b == Tapes.CanMoveNext(Value())
    {
      ptr + 1 < cells.Length
    }

    function CanMoveBack(): (b: bool)
      requires Valid()
      reads this, cells
      ensures b == Tapes.CanMoveBack(Value())
    {
      ptr > 0
    }

    function CanIncrement(): (b: bool)
      requires Valid()
      reads this, cells
      ensures b == Tapes.CanIncrement(Value(), limit)
    {
      cells[ptr] < limit
    }

    function CanDecrement(): (b: bool)
      requires Valid()
      reads this, cells
      ensures b == Tapes.CanDecrement(Value())
    {
      cells[ptr] > 0
    }

    function IsAtByteMax(): (b: bool)
      requires Valid()
      reads this, cells
      ensures b == Tapes.IsAtByteMax(Value())
    {
      cells[ptr] == ByteMax
    }

    method MoveNext()
      requires Valid() && Tapes.CanMoveNext(Value())
      modifies this
      ensures Valid() && Value() == Tapes.MoveNext(old(Value()))
    {
      ptr := ptr + 1;
    }

    method MoveBack()
      requires Valid() && Tapes.CanMoveBack(Value())
      modifies this
      ensures Valid() && Value() == Tapes.MoveBack(old(Value()))
    {
      ptr := ptr - 1;
    }

    /** Stores `v` in the current cell. */
    method Input(v: Cell)
      requires Valid()
      modifies cells
      ensures Valid() && Value() == Store(old(Value()), v)
    {
      cells[ptr] := v;
    }

    method Plus()
      requires Valid() && Tapes.Current(Value()) < ShortMax
      modifies cells
      ensures Valid() && Value() == Tapes.Plus(old(Value()))
    {
      cells[ptr] := cells[ptr] + 1;
    }

    method Minus()
      requires Valid() && Tapes.CanDecrement(Value())
      modifies cells
      ensures Valid() && Value() == Tapes.Minus(old(Value()))
    {
      cells[ptr] := cells[ptr] - 1;
    }

    method ResetCell()
      requires Valid()
      modifies cells
      ensures Valid() && Value() == Store(old(Value()), 0)
    {
      cells[ptr] := 0;
    }
  }
}
