/**
  The in-memory store: an ordered sequence of vehicles used both as a stack
  (the tail is the most recently added element) and as a table addressed by id.
*/
module Collection {
  import opened Wrappers
  import opened Numbers
  import Text
  import opened VehicleTypes
  import opened Vehicles
  import opened Ids

  // ---------------------------------------------------------------------
  // Filtering: what `removeIf` leaves behind and what `stream().filter` keeps.

  /** The elements of `s` that satisfy `keep`, in their order in `s`. */
  function Filter(s: seq<VehicleData>, keep: VehicleData -> bool): (r: seq<VehicleData>)
    ensures |r| <= |s|
    ensures forall v :: v in r <==> v in s && keep(v)
  {
    if s == [] then []
    else (if keep(s[0]) then [s[0]] else []) + Filter(s[1..], keep)
  }

  /** Filtering distributes over concatenation: the survivors keep their relative order. */
  lemma {:induction false} FilterAppend(a: seq<VehicleData>, b: seq<VehicleData>, keep: VehicleData -> bool)
    ensures Filter(a + b, keep) == Filter(a, keep) + Filter(b, keep)
  {
    if a != [] {
      assert (a + b)[1..] == a[1..] + b;
      FilterAppend(a[1..], b, keep);
    } else {
      assert a + b == b;
    }
  }

  /** Filtering removes something exactly when some element fails the test. */
  lemma {:induction false} FilterShrinks(s: seq<VehicleData>, keep: VehicleData -> bool)
    ensures |Filter(s, keep)| < |s| <==> exists k :: 0 <= k < |s| && !keep(s[k])
    ensures |Filter(s, keep)| == |s| ==> Filter(s, keep) == s
  {
    if s != [] {
      FilterShrinks(s[1..], keep);
      if exists k :: 0 <= k < |s[1..]| && !keep(s[1..][k]) {
        var k :| 0 <= k < |s[1..]| && !keep(s[1..][k]);
        assert !keep(s[k + 1]);
      }
      if exists k :: 0 <= k < |s| && !keep(s[k]) {
        var k :| 0 <= k < |s| && !keep(s[k]);
        if k > 0 {
          assert !keep(s[1..][k - 1]);
        }
      }
      assert s == [s[0]] + s[1..];
    }
  }

  function IdIsNot(id: int): VehicleData -> bool {
    (v: VehicleData) => v.id != id
  }

  /** Kept by `removeLower(reference)`: not strictly before the reference by name. */
  function NotBelow(referenceName: string): VehicleData -> bool {
    (v: VehicleData) => !(Text.CompareTo(v.name, referenceName) < 0)
  }

  /** Kept by `filterLessThanType(t)`: a type declared before `t`. */
  function TypeBelow(t: VehicleType): VehicleData -> bool {
    (v: VehicleData) => v.vtype.Some? && Ordinal(v.vtype.value) < Ordinal(t)
  }

  function HasName(name: string): VehicleData -> bool {
    (v: VehicleData) => v.name == name
  }

  /** Kept by `filterByCapacity(c)`: within 0.0001 of `c`. */
  function CapacityNear(c: real): VehicleData -> bool {
    (v: VehicleData) => -0.0001 < v.capacity - c < 0.0001
  }

  // ---------------------------------------------------------------------
  // Sorting: `Collections.sort` with the natural order, a stable sort by name.

  predicate SortedByName(s: seq<VehicleData>) {
    forall k :: 0 <= k < |s| - 1 ==> CompareTo(s[k], s[k + 1]) <= 0
  }

  /** Places `v` before the first element that is not strictly below it. */
  function InsertByName(v: VehicleData, s: seq<VehicleData>): (r: seq<VehicleData>)
    requires SortedByName(s)
    ensures |r| == |s| + 1
    ensures SortedByName(r)
    ensures multiset(r) == multiset(s) + multiset{v}
    ensures r[0] == v || (s != [] && r[0] == s[0])
  {
    if s == [] then [v]
    else if CompareTo(s[0], v) < 0 then
      var rest := InsertByName(v, s[1..]);
      KeepHead(v, s, rest);
      [s[0]] + rest
    else
      CompareToByName(s[0], v);
      SortedCons(v, s);
      [v] + s
  }

  /** The proof step of `InsertByName` when the head stays in front. */
  lemma {:induction false} KeepHead(v: VehicleData, s: seq<VehicleData>, rest: seq<VehicleData>)
    requires SortedByName(s) && s != [] && CompareTo(s[0], v) < 0
    requires SortedByName(rest) && rest != []
    requires rest[0] == v || (|s| > 1 && rest[0] == s[1])
    requires multiset(rest) == multiset(s[1..]) + multiset{v}
    ensures SortedByName([s[0]] + rest)
    ensures multiset([s[0]] + rest) == multiset(s) + multiset{v}
  {
    assert s == [s[0]] + s[1..];
    SortedCons(s[0], rest);
  }

  /** Putting an element that is at most the head in front keeps a sequence sorted. */
  lemma {:induction false} SortedCons(v: VehicleData, s: seq<VehicleData>)
    requires SortedByName(s)
    requires s != [] ==> CompareTo(v, s[0]) <= 0
    ensures SortedByName([v] + s)
  {
    var r := [v] + s;
    forall k | 0 <= k < |r| - 1
      ensures CompareTo(r[k], r[k + 1]) <= 0
    {
      if k > 0 {
        assert r[k] == s[k - 1] && r[k + 1] == s[k];
      }
    }
  }

  /** A stable sort by name: an insertion sort that keeps equal names in their order. */
  function SortByName(s: seq<VehicleData>): (r: seq<VehicleData>)
    ensures SortedByName(r)
    ensures multiset(r) == multiset(s)
  {
    if s == [] then []
    else
      assert s == [s[0]] + s[1..];
      InsertByName(s[0], SortByName(s[1..]))
  }

  /** Non-decreasing between neighbours means non-decreasing between any two positions. */
  lemma {:induction false} SortedPairwise(s: seq<VehicleData>, i: nat, j: nat)
    requires SortedByName(s)
    requires i < j < |s|
    ensures CompareTo(s[i], s[j]) <= 0
    decreases j - i
  {
    if i + 1 < j {
      SortedPairwise(s, i + 1, j);
      Text.CompareToTransitive(s[i].name, s[i + 1].name, s[j].name);
    }
  }

  lemma {:induction false} FilterCons(x: VehicleData, t: seq<VehicleData>, keep: VehicleData -> bool)
    ensures Filter([x] + t, keep) == (if keep(x) then [x] else []) + Filter(t, keep)
  {
    assert ([x] + t)[1..] == t;
  }

  /** One step of the insertion when the head is strictly below the inserted vehicle. */
  lemma {:induction false} InsertPastHead(v: VehicleData, s: seq<VehicleData>)
    requires SortedByName(s) && s != [] && CompareTo(s[0], v) < 0
    ensures SortedByName(s[1..])
    ensures InsertByName(v, s) == [s[0]] + InsertByName(v, s[1..])
  {
  }

  /** The vehicles of `s` called `name`, in order: `Filter(s, HasName(name))` without the closure. */
  function Named(s: seq<VehicleData>, name: string): seq<VehicleData> {
    if s == [] then []
    else (if s[0].name == name then [s[0]] else []) + Named(s[1..], name)
  }

  lemma {:induction false} NamedIsFilter(s: seq<VehicleData>, name: string)
    ensures Named(s, name) == Filter(s, HasName(name))
  {
    if s != [] {
      NamedIsFilter(s[1..], name);
    }
  }

  lemma {:induction false} NamedCons(x: VehicleData, t: seq<VehicleData>, name: string)
    ensures Named([x] + t, name) == (if x.name == name then [x] else []) + Named(t, name)
  {
    assert ([x] + t)[1..] == t;
  }

  /** A vehicle with another name passed over at the head does not change what `Named` sees. */
  lemma {:induction false} NamedPastHead(x: VehicleData, v: VehicleData, rest: seq<VehicleData>, t: seq<VehicleData>, name: string)
    requires x.name != v.name
    requires Named(rest, name) == (if v.name == name then [v] else []) + Named(t, name)
    ensures Named([x] + rest, name) == (if v.name == name then [v] else []) + Named([x] + t, name)
  {
    NamedCons(x, rest, name);
    NamedCons(x, t, name);
  }

  /** Inserting one vehicle leaves the order of the vehicles of any one name as it was. */
  lemma {:induction false} InsertKeepsNameOrder(v: VehicleData, s: seq<VehicleData>, name: string)
    requires SortedByName(s)
    ensures Named(InsertByName(v, s), name) == (if v.name == name then [v] else []) + Named(s, name)
  {
    if s != [] && CompareTo(s[0], v) < 0 {
      InsertPastHead(v, s);
      InsertKeepsNameOrder(v, s[1..], name);
      CompareToByName(s[0], v);
      NamedPastHead(s[0], v, InsertByName(v, s[1..]), s[1..], name);
      assert [s[0]] + s[1..] == s;
    } else {
      assert InsertByName(v, s) == [v] + s;
      NamedCons(v, s, name);
    }
  }

  /**
    The sort is stable: the vehicles sharing any one name appear in the same
    relative order before and after sorting.
  */
  lemma {:induction false} SortIsStable(s: seq<VehicleData>, name: string)
    ensures Filter(SortByName(s), HasName(name)) == Filter(s, HasName(name))
  {
    if s != [] {
      SortIsStable(s[1..], name);
      InsertKeepsNameOrder(s[0], SortByName(s[1..]), name);
      NamedIsFilter(SortByName(s[1..]), name);
      NamedIsFilter(SortByName(s), name);
      NamedIsFilter(s, name);
      NamedIsFilter(s[1..], name);
    }
  }

  // ---------------------------------------------------------------------
  // Aggregates over capacities (real arithmetic, not IEEE doubles).

  function SumOfCapacities(s: seq<VehicleData>): real {
    if s == [] then 0.0 else SumOfCapacities(s[..|s| - 1]) + s[|s| - 1].capacity
  }

  /** The sum over a concatenation is the sum of the sums; the empty sum is 0. */
  lemma {:induction false} SumOfCapacitiesAppend(a: seq<VehicleData>, b: seq<VehicleData>)
    ensures SumOfCapacities(a + b) == SumOfCapacities(a) + SumOfCapacities(b)
    decreases |b|
  {
    if b == [] {
      assert a + b == a;
    } else {
      assert (a + b)[..|a + b| - 1] == a + b[..|b| - 1];
      SumOfCapacitiesAppend(a, b[..|b| - 1]);
    }
  }

  /** The tolerance of `filterByCapacity`: 0.00005 away is a match, 0.001 away is not. */
  lemma {:induction false} CapacityTolerance(c: real, v: VehicleData, w: VehicleData)
    requires v.capacity == c + 0.00005 && w.capacity == c + 0.001
    ensures CapacityNear(c)(v) && !CapacityNear(c)(w)
  {
  }

  // ---------------------------------------------------------------------
  // Identifier invariant of the store.

  /** Every id is positive and no two elements share one. */
  predicate IdsValid(s: seq<VehicleData>) {
    (forall k :: 0 <= k < |s| ==> s[k].id > 0)
    && (forall i, j :: 0 <= i < j < |s| ==> s[i].id != s[j].id)
  }

  /** What `updateById` reports: replaced, no such id, or the setter refused the id. */
  datatype UpdateOutcome = Updated | NotFound | Rejected

  class CollectionManager {
    var collection: seq<VehicleData>
    const initializationDate: Date

    /** A new manager starts empty; loading from a file is not part of this model. */
    constructor (today: Date)
      ensures collection == [] && initializationDate == today
    {
      collection := [];
      initializationDate := today;
    }

    /**
      `add`: the vehicle gets the next scan-based id and today's date and is
      pushed on top. If the id wraps to a non-positive value, `setId` throws
      and neither the vehicle nor the store changes.
    */
    method Add(vehicle: Vehicle, today: Date) returns (ok: bool)
      requires vehicle.Complete()
      modifies this, vehicle`id, vehicle`creationDate
      ensures ok <==> GenerateId(old(collection)) > 0
      ensures ok ==> vehicle.id == GenerateId(old(collection)) && vehicle.creationDate == today
      ensures ok ==> collection == old(collection) + [vehicle.Snapshot()]
      ensures !ok ==> collection == old(collection)
      ensures !ok ==> vehicle.id == old(vehicle.id) && vehicle.creationDate == old(vehicle.creationDate)
      ensures IdsValid(old(collection)) ==> IdsValid(collection)
    {
      var id := GenerateId(collection);
      ok := vehicle.SetId(id);
      if !ok {
        return;
      }
      var dated := vehicle.SetCreationDate(Some(today));
      if MaxId(collection) < MaxInt {
        GeneratedIdIsUnique(collection);
      }
      collection := collection + [vehicle.Snapshot()];
    }

    /**
      `updateById`: the first element with the id is replaced, in place, by
      the new vehicle, which takes over that id and the old creation date.
    */
    method UpdateById(id: Int32, newVehicle: Vehicle) returns (outcome: UpdateOutcome)
      requires newVehicle.Complete()
      modifies this, newVehicle`id, newVehicle`creationDate
      ensures FindId(old(collection), id).None? ==>
        outcome == NotFound && collection == old(collection)
        && newVehicle.id == old(newVehicle.id) && newVehicle.creationDate == old(newVehicle.creationDate)
      ensures FindId(old(collection), id).Some? && id <= 0 ==>
        outcome == Rejected && collection == old(collection)
        && newVehicle.id == old(newVehicle.id) && newVehicle.creationDate == old(newVehicle.creationDate)
      ensures FindId(old(collection), id).Some? && id > 0 ==>
        var i := FindId(old(collection), id).value;
        outcome == Updated
        && newVehicle.id == id && newVehicle.creationDate == old(collection)[i].creationDate
        && collection == old(collection)[i := newVehicle.Snapshot()]
      ensures IdsValid(old(collection)) ==> IdsValid(collection)
    {
      var i := 0;
      while i < |collection|
        invariant 0 <= i <= |collection|
        invariant collection == old(collection)
        invariant forall k :: 0 <= k < i ==> collection[k].id != id
      {
        if collection[i].id == id {
          var ok := newVehicle.SetId(id);
          if !ok {
            return Rejected;
          }
          var dated := newVehicle.SetCreationDate(Some(collection[i].creationDate));
          collection := collection[i := newVehicle.Snapshot()];
          return Updated;
        }
        i := i + 1;
      }
      return NotFound;
    }

    /** `removeById`: every element with the id goes; the others keep their order. */
    method RemoveById(id: Int32) returns (removed: bool)
      modifies this
      ensures collection == Filter(old(collection), IdIsNot(id))
      ensures forall v :: v in collection <==> v in old(collection) && v.id != id
      ensures removed <==> exists k :: 0 <= k < |old(collection)| && old(collection)[k].id == id
    {
      FilterShrinks(collection, IdIsNot(id));
      var before := |collection|;
      collection := Filter(collection, IdIsNot(id));
      removed := |collection| < before;
    }

    /** `clear`: the store becomes empty (the id counter is not reset). */
    method Clear()
      modifies this
      ensures collection == []
    {
      collection := [];
    }

    /** `removeLast`: pops the most recently added element; an empty store is left alone. */
    method RemoveLast() returns (removed: bool)
      modifies this
      ensures removed <==> old(collection) != []
      ensures removed ==> collection == old(collection)[..|old(collection)| - 1]
      ensures !removed ==> collection == old(collection)
    {
      removed := collection != [];
      if removed {
        collection := collection[..|collection| - 1];
      }
    }

    /**
      `removeLower`: removes every vehicle whose name is strictly below the
      reference's, and reports how many went.
    */
    method RemoveLower(reference: Vehicle) returns (count: nat)
      requires reference.name.Some?
      modifies this
      ensures collection == Filter(old(collection), NotBelow(reference.name.value))
      ensures forall k :: 0 <= k < |collection| ==> Text.CompareTo(collection[k].name, reference.name.value) >= 0
      ensures count == |old(collection)| - |collection|
    {
      var before := |collection|;
      collection := Filter(collection, NotBelow(reference.name.value));
      assert forall k :: 0 <= k < |collection| ==> collection[k] in collection;
      count := before - |collection|;
    }

    /** `sort`: a stable sort by name; a permutation of what was there. */
    method Sort()
      modifies this
      ensures collection == SortByName(old(collection))
      ensures SortedByName(collection)
      ensures multiset(collection) == multiset(old(collection))
    {
      collection := SortByName(collection);
    }

    /**
      `filterLessThanType`: the vehicles whose type is declared before `t`, in
      store order. A vehicle without a type makes `getType().ordinal()` throw
      a NullPointerException (None).
    */
    function FilterLessThanType(t: VehicleType): (r: Option<seq<VehicleData>>)
      reads this
      ensures r.None? <==> exists k :: 0 <= k < |collection| && collection[k].vtype.None?
      ensures r.Some? ==> forall v :: v in r.value <==>
        v in collection && Ordinal(v.vtype.value) < Ordinal(t)
      ensures r.Some? ==> r.value == Filter(collection, TypeBelow(t))
    {
      if exists k :: 0 <= k < |collection| && collection[k].vtype.None? then None
      else Some(Filter(collection, TypeBelow(t)))
    }

    /** `containsId`: some element carries the id. */
    function ContainsId(id: Int32): (r: bool)
      reads this
      ensures r <==> exists k :: 0 <= k < |collection| && collection[k].id == id
    {
      FindId(collection, id).Some?
    }

    /** `getSumOfCapacity`: 0 for an empty store. */
    function SumOfCapacity(): (r: real)
      reads this
      ensures collection == [] ==> r == 0.0
    {
      SumOfCapacities(collection)
    }

    /** `filterByCapacity`: the vehicles whose capacity lies within 0.0001 of `c`. */
    function FilterByCapacity(c: real): (r: seq<VehicleData>)
      reads this
      ensures forall v :: v in r <==> v in collection && -0.0001 < v.capacity - c < 0.0001
      ensures r == Filter(collection, CapacityNear(c))
    {
      Filter(collection, CapacityNear(c))
    }
  }
}
