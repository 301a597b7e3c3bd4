/**
  Identifier allocation. The scan-based `GenerateId(c)` looks at the live
  collection; the counter-based `IdGenerator.Next` keeps a high-water mark,
  which `UpdateLastId` resynchronises with a collection.
*/
module Ids {
  import opened Wrappers
  import opened Numbers
  import opened Vehicles

  /** The largest id in `c`, or 0 when `c` is empty (`max().orElse(0)`). */
  function MaxId(c: seq<VehicleData>): (m: Int32)
    ensures c == [] ==> m == 0
    ensures forall k :: 0 <= k < |c| ==> c[k].id <= m
    ensures c != [] ==> exists k :: 0 <= k < |c| && c[k].id == m
  {
    if c == [] then 0
    else
      var m := MaxId(c[..|c| - 1]);
      var last := c[|c| - 1].id;
      if |c| == 1 || last > m then last else m
  }

  /**
    `generateId(collection)`: one more than the largest id, or 1 for an empty
    collection. Java `int` arithmetic wraps when the largest id is MaxInt.
  */
  function GenerateId(c: seq<VehicleData>): (r: Int32)
    ensures c == [] ==> r == 1
    ensures MaxId(c) < MaxInt ==> r == MaxId(c) + 1
    ensures MaxId(c) < MaxInt ==> forall k :: 0 <= k < |c| ==> c[k].id < r
    ensures MaxId(c) == MaxInt ==> r == MinInt
  {
    Wrap32(MaxId(c) + 1)
  }

  /** The index of the first element with the given id. */
  function FindId(c: seq<VehicleData>, id: int): (r: Option<nat>)
    ensures r.Some? ==> r.value < |c| && c[r.value].id == id
    ensures r.Some? ==> forall k :: 0 <= k < r.value ==> c[k].id != id
    ensures r.None? ==> forall k :: 0 <= k < |c| ==> c[k].id != id
  {
    if c == [] then None
    else if c[0].id == id then Some(0)
    else
      match FindId(c[1..], id)
      case None => None
      case Some(k) => Some(k + 1)
  }

  /** `isIdUnique(id, collection)`: no element carries the id. */
  function IsIdUnique(id: int, c: seq<VehicleData>): (r: bool)
    ensures r <==> forall k :: 0 <= k < |c| ==> c[k].id != id
  {
    FindId(c, id).None?
  }

  /**
    Unless the largest id is MaxInt, the generated id is new to the collection,
    and it is positive whenever no id in the collection is negative.
  */
  lemma {:induction false} GeneratedIdIsUnique(c: seq<VehicleData>)
    requires MaxId(c) < MaxInt
    ensures IsIdUnique(GenerateId(c), c)
    ensures (forall k :: 0 <= k < |c| ==> c[k].id >= 0) ==> GenerateId(c) > 0
  {
    if c != [] {
      var k :| 0 <= k < |c| && c[k].id == MaxId(c);
    }
  }

  /** The counter of the second allocation mode (the static field `lastId`). */
  class IdGenerator {
    var lastId: Int32

    constructor ()
      ensures lastId == 0
    {
      lastId := 0;
    }

    /** The id `Next` hands out next. */
    function Peek(): Int32
      reads this
    {
      Wrap32(lastId + 1)
    }

    /** `generateId()`: `++lastId`. */
    method Next() returns (id: Int32)
      modifies this
      ensures lastId == Wrap32(old(lastId) + 1)
      ensures id == lastId && id == old(Peek())
    {
      lastId := Wrap32(lastId + 1);
      id := lastId;
    }

    /**
      `updateLastId(collection)`: the counter becomes the collection's largest
      id, so both allocation modes then agree on the next id.
    */
    method UpdateLastId(c: seq<VehicleData>)
      modifies this
      ensures lastId == MaxId(c)
      ensures Peek() == GenerateId(c)
    {
      lastId := MaxId(c);
    }
  }
}
