/** A vehicle's position: x is required and bounded above by 636, y is any `int`. */
module Coords {
  import opened Wrappers
  import opened Numbers

  /** The largest admissible x. */
  const MaxX: real := 636.0

  /** What a Coordinates object holds; x is null until it has been set. */
  datatype CoordData = CoordData(x: Option<real>, y: Int32)

  /** The rule `setX` enforces: x is present and does not exceed 636. */
  predicate ValidX(x: Option<real>) {
    x.Some? && x.value <= MaxX
  }

  class Coordinates {
    var x: Option<real>
    var y: Int32

    /** `new Coordinates()`: nothing set yet. */
    constructor ()
      ensures x == None && y == 0
    {
      x := None;
      y := 0;
    }

    function Value(): CoordData
      reads this
    {
      CoordData(x, y)
    }

    /** `setX`: a null or too large x is rejected and the old x kept. */
    method SetX(newX: Option<real>) returns (ok: bool)
      modifies this`x
      ensures ok <==> ValidX(newX)
      ensures x == if ok then newX else old(x)
    {
      if newX.None? {
        return false;
      }
      if newX.value > MaxX {
        return false;
      }
      x := newX;
      ok := true;
    }

    /** `setY`: every `int` is accepted as given. */
    method SetY(newY: Int32)
      modifies this`y
      ensures y == newY
    {
      y := newY;
    }

    /**
      `new Coordinates(x, y)`: the constructor assigns x through `setX`, so an
      x that `setX` rejects makes construction fail (null here).
    */
    static method Make(newX: Option<real>, newY: Int32) returns (c: Coordinates?)
      ensures c == null <==> !ValidX(newX)
      ensures c != null ==> fresh(c) && c.x == newX && c.y == newY
    {
      c := new Coordinates();
      var ok := c.SetX(newX);
      if !ok {
        return null;
      }
      c.y := newY;
    }
  }
}
