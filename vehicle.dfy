/**
  The managed record. `Vehicle` is the mutable object whose setters validate
  before assigning; `VehicleData` is the value the store keeps of it.
*/
module Vehicles {
  import opened Wrappers
  import opened Numbers
  import Text
  import opened VehicleTypes
  import opened FuelTypes
  import opened Coords

  /** A calendar date; its ISO 8601 text is supplied to the codec from outside. */
  datatype Date = Date(epochDay: int)

  /** The fields of a vehicle; the Option fields are those Java lets be null. */
  datatype VehicleData = VehicleData(
    id: Int32,
    name: string,
    coordinates: CoordData,
    creationDate: Date,
    enginePower: Option<real>,
    capacity: real,
    vtype: Option<VehicleType>,
    fuelType: Option<FuelType>)

  /** `compareTo`: the natural order is that of the names, not of the ids. */
  function CompareTo(a: VehicleData, b: VehicleData): int {
    Text.CompareTo(a.name, b.name)
  }

  /** `equals`: two vehicles are equal when their ids are. */
  predicate Equals(a: VehicleData, b: VehicleData) {
    a.id == b.id
  }

  /** `hashCode`: `Integer.hashCode(id)`, which is the id itself. */
  function HashCode(v: VehicleData): int {
    v.id
  }

  /**
    The natural order is a proper comparison on names: swapping the operands
    flips the sign, and only vehicles with the same name compare as 0.
  */
  lemma {:induction false} CompareToByName(a: VehicleData, b: VehicleData)
    ensures CompareTo(a, b) == -CompareTo(b, a)
    ensures CompareTo(a, b) == 0 <==> a.name == b.name
    ensures CompareTo(a, b) < 0 <==> CompareTo(b, a) > 0
  {
    Text.CompareToAntisymmetric(a.name, b.name);
    Text.CompareToZeroIffEqual(a.name, b.name);
  }

  /** `equals` is an equivalence and `hashCode` agrees with it. */
  lemma {:induction false} EqualsConsistentWithHashCode(a: VehicleData, b: VehicleData, c: VehicleData)
    ensures Equals(a, a)
    ensures Equals(a, b) ==> Equals(b, a)
    ensures Equals(a, b) && Equals(b, c) ==> Equals(a, c)
    ensures Equals(a, b) ==> HashCode(a) == HashCode(b)
  {
  }

  class Vehicle {
    var id: Int32
    var name: Option<string>
    var coordinates: Coordinates?
    var creationDate: Date
    var enginePower: Option<real>
    var capacity: real
    var vtype: Option<VehicleType>
    var fuelType: Option<FuelType>

    /** `new Vehicle()`: only the creation date, today, is set. */
    constructor (today: Date)
      ensures id == 0 && name == None && coordinates == null && creationDate == today
      ensures enginePower == None && capacity == 0.0 && vtype == None && fuelType == None
    {
      id := 0;
      name := None;
      coordinates := null;
      creationDate := today;
      enginePower := None;
      capacity := 0.0;
      vtype := None;
      fuelType := None;
    }

    /** The all-fields constructor: it assigns directly, without the setters' checks. */
    constructor Full(id: Int32, name: Option<string>, coordinates: Coordinates?,
                     enginePower: Option<real>, capacity: real, vtype: Option<VehicleType>,
                     fuelType: Option<FuelType>, today: Date)
      ensures this.id == id && this.name == name && this.coordinates == coordinates
      ensures this.creationDate == today && this.enginePower == enginePower
      ensures this.capacity == capacity && this.vtype == vtype && this.fuelType == fuelType
    {
      this.id := id;
      this.name := name;
      this.coordinates := coordinates;
      this.creationDate := today;
      this.enginePower := enginePower;
      this.capacity := capacity;
      this.vtype := vtype;
      this.fuelType := fuelType;
    }

    /** The object has the two fields a snapshot cannot do without. */
    predicate Complete()
      reads this
    {
      name.Some? && coordinates != null
    }

    /** The value of the object and of the Coordinates object it points to. */
    function Snapshot(): VehicleData
      reads this, coordinates
      requires Complete()
    {
      VehicleData(id, name.value, coordinates.Value(), creationDate, enginePower, capacity, vtype, fuelType)
    }

    /** `setId`: ids must be positive; a rejected id leaves the old one. */
    method SetId(newId: Int32) returns (ok: bool)
      modifies this`id
      ensures ok <==> newId > 0
      ensures id == if ok then newId else old(id)
    {
      ok := newId > 0;
      if ok {
        id := newId;
      }
    }

    /** `setName`: null or blank names are rejected; an accepted name is stored untrimmed. */
    method SetName(newName: Option<string>) returns (ok: bool)
      modifies this`name
      ensures ok <==> newName.Some? && !Text.IsBlank(newName.value)
      ensures name == if ok then newName else old(name)
    {
      ok := newName.Some? && !Text.IsBlank(newName.value);
      if ok {
        name := newName;
      }
    }

    /** `setCoordinates`: null is rejected. */
    method SetCoordinates(c: Coordinates?) returns (ok: bool)
      modifies this`coordinates
      ensures ok <==> c != null
      ensures coordinates == if ok then c else old(coordinates)
    {
      ok := c != null;
      if ok {
        coordinates := c;
      }
    }

    /** `setCreationDate`: null is rejected. */
    method SetCreationDate(d: Option<Date>) returns (ok: bool)
      modifies this`creationDate
      ensures ok <==> d.Some?
      ensures creationDate == if ok then d.value else old(creationDate)
    {
      ok := d.Some?;
      if ok {
        creationDate := d.value;
      }
    }

    /** `setEnginePower`: null and values at or below 0 are rejected. */
    method SetEnginePower(p: Option<real>) returns (ok: bool)
      modifies this`enginePower
      ensures ok <==> p.Some? && p.value > 0.0
      ensures enginePower == if ok then p else old(enginePower)
    {
      if p.None? {
        return false;
      }
      if p.value <= 0.0 {
        return false;
      }
      enginePower := p;
      ok := true;
    }

    /** `setCapacity`: values at or below 0 are rejected. */
    method SetCapacity(c: real) returns (ok: bool)
      modifies this`capacity
      ensures ok <==> c > 0.0
      ensures capacity == if ok then c else old(capacity)
    {
      ok := c > 0.0;
      if ok {
        capacity := c;
      }
    }

    /** `setType`: null is rejected. */
    method SetType(t: Option<VehicleType>) returns (ok: bool)
      modifies this`vtype
      ensures ok <==> t.Some?
      ensures vtype == if ok then t else old(vtype)
    {
      ok := t.Some?;
      if ok {
        vtype := t;
      }
    }

    /** `setFuelType`: anything is accepted, null included. */
    method SetFuelType(f: Option<FuelType>)
      modifies this`fuelType
      ensures fuelType == f
    {
      fuelType := f;
    }
  }
}
