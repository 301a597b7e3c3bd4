/** The closed set of fuel kinds, ordered by declaration; a vehicle may have none. */
module FuelTypes {
  import opened Wrappers
  import Text

  datatype FuelType = GASOLINE | KEROSENE | ALCOHOL | MANPOWER

  /** `FuelType.values()`: the constants in declaration order. */
  const Values: seq<FuelType> := [GASOLINE, KEROSENE, ALCOHOL, MANPOWER]

  /** The constants' names, in declaration order. */
  const Names: seq<string> := ["GASOLINE", "KEROSENE", "ALCOHOL", "MANPOWER"]

  /** `ordinal()`: the constant's position in `values()`. */
  function Ordinal(f: FuelType): (r: nat)
    ensures r < |Values| && Values[r] == f
  {
    match f
    case GASOLINE => 0
    case KEROSENE => 1
    case ALCOHOL => 2
    case MANPOWER => 3
  }

  /** `name()`. */
  function Name(f: FuelType): (r: string)
    ensures r == Names[Ordinal(f)]
  {
    match f
    case GASOLINE => "GASOLINE"
    case KEROSENE => "KEROSENE"
    case ALCOHOL => "ALCOHOL"
    case MANPOWER => "MANPOWER"
  }

  /** `FuelType.valueOf(s)`: exact, case-sensitive match on a constant's name. */
  function ValueOf(s: string): (r: Option<FuelType>)
    ensures r.Some? ==> Name(r.value) == s
    ensures r.None? ==> forall f :: Name(f) != s
  {
    if s == "GASOLINE" then Some(GASOLINE)
    else if s == "KEROSENE" then Some(KEROSENE)
    else if s == "ALCOHOL" then Some(ALCOHOL)
    else if s == "MANPOWER" then Some(MANPOWER)
    else None
  }

  /**
    Writing a constant's name and looking it up again gives back the constant,
    and no constant is called "null", the token written for an absent fuel type.
  */
  lemma {:induction false} ValueOfName(f: FuelType)
    ensures ValueOf(Name(f)) == Some(f)
    ensures Name(f) != "null"
  {
  }

  /** A name is a non-empty word of upper-case ASCII letters. */
  lemma {:induction false} NameIsWord(f: FuelType)
    ensures Name(f) != [] && forall k :: 0 <= k < |Name(f)| ==> 'A' <= Name(f)[k] <= 'Z'
  {
  }

  /** Declaration order: GASOLINE, KEROSENE, ALCOHOL, MANPOWER, four constants. */
  lemma DeclarationOrder()
    ensures |Values| == 4
    ensures Ordinal(GASOLINE) < Ordinal(KEROSENE) < Ordinal(ALCOHOL) < Ordinal(MANPOWER)
    ensures forall f :: f in Values
  {
    forall f ensures f in Values {
      assert Values[Ordinal(f)] == f;
    }
  }

  /** The names joined by ", " in declaration order, as the error messages list them. */
  const Listed: string := "GASOLINE, KEROSENE, ALCOHOL, MANPOWER"

  lemma JoinedTwo()
    ensures Text.JoinComma(Names[..2]) == "GASOLINE, KEROSENE"
  {
    assert Names[..2] == [Names[0]] + [Names[1]];
    Text.JoinCommaSnoc([Names[0]], Names[1]);
  }

  lemma JoinedThree()
    ensures Text.JoinComma(Names[..3]) == "GASOLINE, KEROSENE, ALCOHOL"
  {
    JoinedTwo();
    assert Names[..3] == Names[..2] + [Names[2]];
    Text.JoinCommaSnoc(Names[..2], Names[2]);
  }

  /** Joining the names gives the listing of all constants. */
  lemma NamesJoined()
    ensures Text.JoinComma(Names) == Listed
  {
    JoinedThree();
    assert Names == Names[..3] + [Names[3]];
    Text.JoinCommaSnoc(Names[..3], Names[3]);
  }

  /** `getTypes()`: each name followed by ", ", then the last two characters cut. */
  method GetTypes() returns (s: string)
    ensures s == Text.JoinComma(Names)
    ensures s == Listed
  {
    var sb := "";
    for i := 0 to |Values|
      invariant sb == Text.Listing(Names[..i])
    {
      assert Names[..i + 1][..i] == Names[..i];
      sb := sb + Name(Values[i]) + ", ";
    }
    assert Names[..|Values|] == Names;
    NamesJoined();
    Text.ListingIsJoinPlusSeparator(Names);
    s := sb[..|sb| - 2];
  }
}
