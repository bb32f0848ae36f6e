/** The per-switch-id marker that limits invalidation packets. */
module BloomFilter {

  type Marks = seq<bool>

  /** Marks set and read by position: the filter's index function is the identity. */
  function Mark(m: Marks, id: nat): (m': Marks)
    ensures |m'| == |m|
    ensures forall i :: 0 <= i < |m| ==> (m'[i] <==> m[i] || i == id)
  {
    if id < |m| then m[id := true] else m
  }

  predicate Marked(m: Marks, id: nat) {
    id < |m| && m[id]
  }

  class Filter {
    const cells: array<nat>

    ghost function Contents(): (m: Marks)
      reads cells
      ensures |m| == cells.Length
      ensures forall i :: 0 <= i < |m| ==> (m[i] <==> cells[i] == 1)
    {
      seq(cells.Length, i requires 0 <= i < cells.Length reads cells => cells[i] == 1)
    }

    constructor (size: nat)
      ensures fresh(cells) && cells.Length == size
      ensures forall i :: 0 <= i < size ==> !Contents()[i]
    {
      cells := new nat[size];
      new;
      for i := 0 to size
        invariant forall j :: 0 <= j < i ==> cells[j] == 0
      {
        cells[i] := 0;
      }
    }

    method Get(key: nat) returns (marked: bool)
      requires key < cells.Length
      ensures marked <==> Marked(Contents(), key)
    {
      marked := cells[key] == 1;
    }

    method Put(key: nat)
      requires key < cells.Length
      modifies cells
      ensures Contents() == Mark(old(Contents()), key)
    {
      cells[key] := 1;
    }
  }
}
