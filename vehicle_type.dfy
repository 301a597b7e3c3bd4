/** The closed set of vehicle kinds, ordered by declaration. */
module VehicleTypes {
  import opened Wrappers
  import Text

  datatype VehicleType = CAR | SUBMARINE | BICYCLE | HOVERBOARD

  /** `VehicleType.values()`: the constants in declaration order. */
  const Values: seq<VehicleType> := [CAR, SUBMARINE, BICYCLE, HOVERBOARD]

  /** The constants' names, in declaration order. */
  const Names: seq<string> := ["CAR", "SUBMARINE", "BICYCLE", "HOVERBOARD"]

  /** `ordinal()`: the constant's position in `values()`. */
  function Ordinal(t: VehicleType): (r: nat)
    ensures r < |Values| && Values[r] == t
  {
    match t
    case CAR => 0
    case SUBMARINE => 1
    case BICYCLE => 2
    case HOVERBOARD => 3
  }

  /** `name()`. */
  function Name(t: VehicleType): (r: string)
    ensures r == Names[Ordinal(t)]
  {
    match t
    case CAR => "CAR"
    case SUBMARINE => "SUBMARINE"
    case BICYCLE => "BICYCLE"
    case HOVERBOARD => "HOVERBOARD"
  }

  /** `VehicleType.valueOf(s)`: exact, case-sensitive match on a constant's name. */
  function ValueOf(s: string): (r: Option<VehicleType>)
    ensures r.Some? ==> Name(r.value) == s
    ensures r.None? ==> forall t :: Name(t) != s
  {
    if s == "CAR" then Some(CAR)
    else if s == "SUBMARINE" then Some(SUBMARINE)
    else if s == "BICYCLE" then Some(BICYCLE)
    else if s == "HOVERBOARD" then Some(HOVERBOARD)
    else None
  }

  /** Writing a constant's name and looking it up again gives back the constant. */
  lemma {:induction false} ValueOfName(t: VehicleType)
    ensures ValueOf(Name(t)) == Some(t)
  {
  }

  /** Names carry no surrounding spaces, so trimming leaves them as they are. */
  lemma {:induction false} NameIsTrimmed(t: VehicleType)
    ensures Text.Trim(Name(t)) == Name(t)
  {
    var n := Name(t);
    assert n != [] && n[0] != ' ' && n[|n| - 1] != ' ' by {
      match t
      case CAR =>
      case SUBMARINE =>
      case BICYCLE =>
      case HOVERBOARD =>
    }
    Text.TrimOfTrimmed(n);
  }

  /** A name is a non-empty word of upper-case ASCII letters. */
  lemma {:induction false} NameIsWord(t: VehicleType)
    ensures Name(t) != [] && forall k :: 0 <= k < |Name(t)| ==> 'A' <= Name(t)[k] <= 'Z'
  {
  }

  /** Declaration order: CAR < SUBMARINE < BICYCLE < HOVERBOARD, four constants. */
  lemma DeclarationOrder()
    ensures |Values| == 4
    ensures Ordinal(CAR) < Ordinal(SUBMARINE) < Ordinal(BICYCLE) < Ordinal(HOVERBOARD)
    ensures forall t :: t in Values
  {
    forall t ensures t in Values {
      assert Values[Ordinal(t)] == t;
    }
  }

  /** The names joined by ", " in declaration order, as the error messages list them. */
  const Listed: string := "CAR, SUBMARINE, BICYCLE, HOVERBOARD"

  lemma JoinedTwo()
    ensures Text.JoinComma(Names[..2]) == "CAR, SUBMARINE"
  {
    assert Names[..2] == [Names[0]] + [Names[1]];
    Text.JoinCommaSnoc([Names[0]], Names[1]);
  }

  lemma JoinedThree()
    ensures Text.JoinComma(Names[..3]) == "CAR, SUBMARINE, BICYCLE"
  {
    JoinedTwo();
    assert Names[..3] == Names[..2] + [Names[2]];
    Text.JoinCommaSnoc(Names[..2], Names[2]);
  }

  /** Joining the names gives the listing of all constants. */
  lemma NamesJoined()
    ensures Text.JoinComma(Names) == Listed
  {
    JoinedThree();
    assert Names == Names[..3] + [Names[3]];
    Text.JoinCommaSnoc(Names[..3], Names[3]);
  }

  /** `getTypes()`: each name followed by ", ", then the last two characters cut. */
  method GetTypes() returns (s: string)
    ensures s == Text.JoinComma(Names)
    ensures s == Listed
  {
    var sb := "";
    for i := 0 to |Values|
      invariant sb == Text.Listing(Names[..i])
    {
      assert Names[..i + 1][..i] == Names[..i];
      sb := sb + Name(Values[i]) + ", ";
    }
    assert Names[..|Values|] == Names;
    NamesJoined();
    Text.ListingIsJoinPlusSeparator(Names);
    s := sb[..|sb| - 2];
  }
}
