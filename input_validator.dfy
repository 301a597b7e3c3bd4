/**
  The console's field checks. Each one throws (here: fails) on exactly the
  values the matching setter of Vehicle or Coordinates rejects.
*/
module InputValidator {
  import opened Wrappers
  import opened Numbers
  import Text
  import opened VehicleTypes
  import opened Coords

  /** Why a value was refused. */
  datatype Invalid =
    | Missing(field: string)
    | Blank(field: string)
    | NotPositive(field: string)
    | TooLarge(field: string)
    | NotOneOf(available: string)

  /** `validateName`: null, or nothing but spaces after trimming. */
  function ValidateName(name: Option<string>): (r: Outcome<Invalid>)
    ensures r.Pass? <==> name.Some? && exists k :: 0 <= k < |name.value| && !Text.IsSpace(name.value[k])
    ensures r.Fail? ==> r.error == Blank("name")
  {
    if name.None? then Fail(Blank("name"))
    else
      Text.BlankIffAllSpace(name.value);
      if Text.IsBlank(name.value) then Fail(Blank("name")) else Pass
  }

  /** `validateEnginePower`: null is reported as missing, values at or below 0 as not positive. */
  function ValidateEnginePower(p: Option<real>): (r: Outcome<Invalid>)
    ensures r.Pass? <==> p.Some? && p.value > 0.0
    ensures p.None? ==> r == Fail(Missing("enginePower"))
  {
    if p.None? then Fail(Missing("enginePower"))
    else if p.value <= 0.0 then Fail(NotPositive("enginePower"))
    else Pass
  }

  /** `validateCapacity`: values at or below 0. */
  function ValidateCapacity(c: real): (r: Outcome<Invalid>)
    ensures r.Pass? <==> c > 0.0
  {
    if c <= 0.0 then Fail(NotPositive("capacity")) else Pass
  }

  /** `validateCoordinateX`: exactly the values `Coordinates.setX` rejects. */
  function ValidateCoordinateX(x: Option<real>): (r: Outcome<Invalid>)
    ensures r.Pass? <==> ValidX(x)
    ensures x.Some? && x.value == MaxX ==> r.Pass?
    ensures x.None? ==> r == Fail(Missing("x"))
  {
    if x.None? then Fail(Missing("x"))
    else if x.value > MaxX then Fail(TooLarge("x"))
    else Pass
  }

  /** `validateId`: exactly the ids `Vehicle.setId` rejects. */
  function ValidateId(id: Int32): (r: Outcome<Invalid>)
    ensures r.Pass? <==> id > 0
  {
    if id <= 0 then Fail(NotPositive("id")) else Pass
  }

  /**
    `validateAndParseVehicleType`: null or blank input is refused; otherwise
    the input is upper-cased and trimmed and must then be a constant's name.
    An unknown name is refused with the list of all names.
  */
  function ValidateAndParseVehicleType(input: Option<string>): (r: Result<VehicleType, Invalid>)
    ensures input.None? || Text.IsBlank(input.value) ==> r == Err(Blank("type"))
    ensures r.Ok? ==> input.Some? && Name(r.value) == Text.Trim(Text.ToUpper(input.value))
    ensures input.Some? && !Text.IsBlank(input.value) ==>
      (r.Ok? <==> exists t :: Name(t) == Text.Trim(Text.ToUpper(input.value)))
    ensures r.Err? && input.Some? && !Text.IsBlank(input.value) ==>
      r.error == NotOneOf(Listed)
  {
    if input.None? || Text.IsBlank(input.value) then Err(Blank("type"))
    else
      match ValueOf(Text.Trim(Text.ToUpper(input.value)))
      case Some(t) => Ok(t)
      case None =>
        NamesJoined();
        Err(NotOneOf(Text.JoinComma(Names)))
  }

  /** A spelling whose upper case is a constant's name is not blank, and upper-casing and trimming it gives that name. */
  lemma {:induction false} UpperNameIsTrimmed(t: VehicleType, s: string)
    requires Text.ToUpper(s) == Name(t)
    ensures !Text.IsBlank(s) && Text.Trim(Text.ToUpper(s)) == Name(t)
  {
    var n := Name(t);
    NameIsTrimmed(t);
    assert !Text.IsSpace(s[0]) by {
      NameIsWord(t);
      assert Text.ToUpperChar(s[0]) == n[0] && 'A' <= n[0];
    }
    Text.BlankIffAllSpace(s);
  }

  /** Matching ignores case: any spelling whose upper case is a constant's name selects it. */
  lemma {:induction false} TypeMatchIgnoresCase(t: VehicleType, s: string)
    requires Text.ToUpper(s) == Name(t)
    ensures ValidateAndParseVehicleType(Some(s)) == Ok(t)
  {
    UpperNameIsTrimmed(t, s);
    ValueOfName(t);
  }

  /**
    `validateName` and `Vehicle.setName` refuse the same names: the check
    passes exactly when `name.trim().isEmpty()` is false.
  */
  lemma {:induction false} NameCheckAgrees(name: string)
    ensures ValidateName(Some(name)).Pass? <==> !Text.IsBlank(name)
  {
    Text.BlankIffAllSpace(name);
  }
}
