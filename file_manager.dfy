/**
  The store's text codec. `saveCollection` writes the vehicles one tagged
  block after another; `parseVehicles` finds each `<vehicle>` block with
  `extractTag`-style searches and rebuilds the vehicle through its setters,
  failing the whole load on the first bad block. File I/O is left out: saving
  yields the text, loading starts from it.
*/
module FileManager {
  import opened Wrappers
  import opened Numbers
  import opened Text
  import VehicleTypes
  import FuelTypes
  import opened Coords
  import opened Vehicles
  import Escaping
  import opened Markup
  import opened Fields

  /**
    The decimal texts the source obtains from `Double.toString`,
    `Double.parseDouble`, `LocalDate.toString` and `LocalDate.parse`.
  */
  datatype Literals = Literals(
    showReal: real -> string,
    parseReal: string -> Option<real>,
    showDate: Date -> string,
    parseDate: string -> Option<Date>)

  /** A literal is non-empty, holds no markup and carries no surrounding spaces. */
  predicate Plain(s: string) {
    s != [] && NoLt(s) && !IsSpace(s[0]) && !IsSpace(s[|s| - 1])
  }

  /**
    What the codec relies on from the date functions: every written date
    reads back as itself; and the text `null` is not a number. Numbers are
    asked to read back only where they are written (`RealRoundTrips`): a
    `real` stands for a `double`, and no text format reads back every real.
  */
  ghost predicate ValidLiterals(L: Literals) {
    (forall d :: Plain(L.showDate(d)) && L.parseDate(L.showDate(d)) == Some(d)) &&
    L.parseReal("null") == None
  }

  /** The decimal text written for `x` is plain and reads back as `x`, as `Double.toString` does for a double. */
  predicate RealRoundTrips(L: Literals, x: real) {
    Plain(L.showReal(x)) && L.parseReal(L.showReal(x)) == Some(x)
  }

  /** An absent value is written as `null`; a present one must read back. */
  predicate OptRealRoundTrips(L: Literals, x: Option<real>) {
    x.Some? ==> RealRoundTrips(L, x.value)
  }

  /** Why a block does not load; one per `InvalidDataException` the parser raises. */
  datatype ParseError =
    | BadId | NonPositiveId | BlankName | NoCoordinates | BadX | XTooLarge | BadY
    | BadDate | BadEnginePower | NonPositiveEnginePower | BadCapacity | NonPositiveCapacity | BadType

  // ---------------------------------------------------------------------
  // Reading: `parseCoordinates`, `parseVehicle`, `parseVehicles`.

  function DecodeX(L: Literals, s: Option<string>): (r: Result<Option<real>, ParseError>)
    ensures r.Ok? ==> r.value.None? || ValidX(r.value)
  {
    match s
    case None => Ok(None)
    case Some(t) =>
      match L.parseReal(t)
      case None => Err(BadX)
      case Some(x) => if x > MaxX then Err(XTooLarge) else Ok(Some(x))
  }

  function DecodeY(s: Option<string>): Result<Int32, ParseError> {
    match s
    case None => Ok(0)
    case Some(t) =>
      match ParseInt(t)
      case None => Err(BadY)
      case Some(y) => Ok(y)
  }

  /** The texts of the `<x>` and `<y>` tags of a coordinates group (absent: None). */
  datatype CoordTags = CoordTags(x: Option<string>, y: Option<string>)

  /** The two `extractTag` calls `parseCoordinates` makes. */
  function CoordTagsOf(xml: string): (t: CoordTags)
    ensures t.x == ExtractTag(xml, "x") && t.y == ExtractTag(xml, "y")
  {
    CoordTags(ExtractTag(xml, "x"), ExtractTag(xml, "y"))
  }

  /**
    `parseCoordinates`: x must parse and not exceed 636, y must parse as an
    `int`; an absent tag leaves its field as a new Coordinates has it.
  */
  function DecodeCoordinates(L: Literals, t: CoordTags): (r: Result<CoordData, ParseError>)
    ensures r.Ok? ==> r.value.x.None? || ValidX(r.value.x)
  {
    var x :- DecodeX(L, t.x);
    var y :- DecodeY(t.y);
    Ok(CoordData(x, y))
  }

  /** The `<coordinates>` group is the one field a vehicle cannot be loaded without. */
  function DecodeCoordinatesTag(L: Literals, s: Option<CoordTags>): (r: Result<CoordData, ParseError>)
    ensures s.None? ==> r == Err(NoCoordinates)
    ensures r.Ok? ==> r.value.x.None? || ValidX(r.value.x)
  {
    match s
    case None => Err(NoCoordinates)
    case Some(c) => DecodeCoordinates(L, c)
  }

  function DecodeId(s: Option<string>): (r: Result<Int32, ParseError>)
    ensures r.Ok? ==> r.value >= 0
  {
    match s
    case None => Ok(0)
    case Some(t) =>
      match ParseInt(t)
      case None => Err(BadId)
      case Some(n) => if n <= 0 then Err(NonPositiveId) else Ok(n)
  }

  function DecodeName(s: Option<string>): (r: Result<string, ParseError>)
    ensures r.Ok? ==> !IsBlank(r.value)
  {
    match s
    case None => Err(BlankName)
    case Some(t) => if IsBlank(t) then Err(BlankName) else Ok(t)
  }

  function DecodeDate(L: Literals, today: Date, s: Option<string>): Result<Date, ParseError> {
    match s
    case None => Ok(today)
    case Some(t) =>
      match L.parseDate(t)
      case None => Err(BadDate)
      case Some(d) => Ok(d)
  }

  function DecodeEnginePower(L: Literals, s: Option<string>): (r: Result<Option<real>, ParseError>)
    ensures r.Ok? ==> r.value.None? || r.value.value > 0.0
  {
    match s
    case None => Ok(None)
    case Some(t) =>
      match L.parseReal(t)
      case None => Err(BadEnginePower)
      case Some(p) => if p <= 0.0 then Err(NonPositiveEnginePower) else Ok(Some(p))
  }

  function DecodeCapacity(L: Literals, s: Option<string>): (r: Result<real, ParseError>)
    ensures r.Ok? ==> r.value >= 0.0
  {
    match s
    case None => Ok(0.0)
    case Some(t) =>
      match L.parseReal(t)
      case None => Err(BadCapacity)
      case Some(c) => if c <= 0.0 then Err(NonPositiveCapacity) else Ok(c)
  }

  function DecodeType(s: Option<string>): Result<Option<VehicleTypes.VehicleType>, ParseError> {
    match s
    case None => Ok(None)
    case Some(t) =>
      match VehicleTypes.ValueOf(t)
      case None => Err(BadType)
      case Some(k) => Ok(Some(k))
  }

  /** The fuel type never fails a load: absent, `null` and unknown all give no fuel type. */
  function DecodeFuelType(s: Option<string>): (r: Option<FuelTypes.FuelType>)
    ensures r.Some? <==> s.Some? && FuelTypes.ValueOf(s.value).Some?
    ensures r.Some? ==> FuelTypes.Name(r.value) == s.value
  {
    match s
    case None => None
    case Some(t) =>
      if t == "null" then None
      else FuelTypes.ValueOf(t)
  }

  /**
    What any loaded vehicle satisfies: the setters' rules for the fields that
    were present, and the new-object defaults (id 0, no x, no engine power,
    capacity 0) for those that were not.
  */
  predicate Loaded(v: VehicleData) {
    v.id >= 0 && !IsBlank(v.name) &&
    (v.coordinates.x.None? || ValidX(v.coordinates.x)) &&
    (v.enginePower.None? || v.enginePower.value > 0.0) &&
    v.capacity >= 0.0
  }

  /** The text of each of a vehicle's tags, as `extractTag` finds it (absent: None). */
  datatype VehicleTags = VehicleTags(
    id: Option<string>, name: Option<string>, coordinates: Option<CoordTags>,
    creationDate: Option<string>, enginePower: Option<string>, capacity: Option<string>,
    vtype: Option<string>, fuelType: Option<string>)

  /** The eight `extractTag` calls `parseVehicle` makes on one `<vehicle>` block. */
  function TagsOf(xml: string): (t: VehicleTags)
    ensures t.id == ExtractTag(xml, "id") && t.name == ExtractTag(xml, "name")
    ensures t.coordinates == (match ExtractTag(xml, "coordinates") case None => None case Some(c) => Some(CoordTagsOf(c)))
    ensures t.creationDate == ExtractTag(xml, "creationDate")
    ensures t.enginePower == ExtractTag(xml, "enginePower") && t.capacity == ExtractTag(xml, "capacity")
    ensures t.vtype == ExtractTag(xml, "type") && t.fuelType == ExtractTag(xml, "fuelType")
  {
    var coordinates := match ExtractTag(xml, "coordinates") case None => None case Some(c) => Some(CoordTagsOf(c));
    VehicleTags(ExtractTag(xml, "id"), ExtractTag(xml, "name"), coordinates,
                ExtractTag(xml, "creationDate"), ExtractTag(xml, "enginePower"), ExtractTag(xml, "capacity"),
                ExtractTag(xml, "type"), ExtractTag(xml, "fuelType"))
  }

  /** `parseVehicle`: the fields in the source's order, the first failing one deciding the error. */
  function DecodeVehicle(L: Literals, today: Date, xml: string): (r: Result<VehicleData, ParseError>)
    ensures r.Ok? ==> Loaded(r.value)
  {
    DecodeTags(L, today, TagsOf(xml))
  }

  function DecodeTags(L: Literals, today: Date, t: VehicleTags): (r: Result<VehicleData, ParseError>)
    ensures r.Ok? ==> Loaded(r.value)
  {
    var id :- DecodeId(t.id);
    var name :- DecodeName(t.name);
    var coords :- DecodeCoordinatesTag(L, t.coordinates);
    DecodeRest(L, today, t, id, name, coords)
  }

  /** The fields after the coordinates, completing a vehicle whose first three fields are known. */
  function DecodeRest(L: Literals, today: Date, t: VehicleTags, id: Int32, name: string, coords: CoordData)
    : (r: Result<VehicleData, ParseError>)
    ensures r.Ok? ==> r.value.id == id && r.value.name == name && r.value.coordinates == coords
    ensures r.Ok? ==> (r.value.enginePower.None? || r.value.enginePower.value > 0.0) && r.value.capacity >= 0.0
  {
    var date :- DecodeDate(L, today, t.creationDate);
    var power :- DecodeEnginePower(L, t.enginePower);
    var capacity :- DecodeCapacity(L, t.capacity);
    var vtype :- DecodeType(t.vtype);
    Ok(VehicleData(id, name, coords, date, power, capacity, vtype, DecodeFuelType(t.fuelType)))
  }

  /**
    `parseVehicles` from position `from`: each `<vehicle>…</vehicle>` match in
    turn, the next search starting where the match ended; the first block
    that fails to parse fails the whole load.
  */
  function DecodeVehicles(L: Literals, today: Date, xml: string, from: nat): (r: Result<seq<VehicleData>, ParseError>)
    requires from <= |xml|
    ensures r.Ok? ==> forall v :: v in r.value ==> Loaded(v)
    decreases |xml| - from
  {
    match FindElement(xml, "vehicle", from)
    case None => Ok([])
    case Some(sp) => Cons(DecodeVehicle(L, today, xml[sp.start..sp.end]), DecodeVehicles(L, today, xml, sp.next))
  }

  /** The first failure wins: the block's own, then the rest's; otherwise the block's vehicle goes in front. */
  function Cons(block: Result<VehicleData, ParseError>, rest: Result<seq<VehicleData>, ParseError>): (r: Result<seq<VehicleData>, ParseError>)
    ensures r.Ok? <==> block.Ok? && rest.Ok?
    ensures r.Ok? ==> r.value == [block.value] + rest.value
    ensures r.Err? ==> r.error == if block.Err? then block.error else rest.error
  {
    var v :- block;
    var vs :- rest;
    Ok([v] + vs)
  }

  // ---------------------------------------------------------------------
  // Writing: `saveCollection`.

  /** `StringBuilder.append` of a possibly null `Double`. */
  function RealText(L: Literals, x: Option<real>): string {
    match x
    case None => "null"
    case Some(r) => L.showReal(r)
  }

  function TypeText(t: Option<VehicleTypes.VehicleType>): string {
    match t
    case None => "null"
    case Some(k) => VehicleTypes.Name(k)
  }

  function FuelText(f: Option<FuelTypes.FuelType>): string {
    match f
    case None => "null"
    case Some(k) => FuelTypes.Name(k)
  }

  /** The lines before `<coordinates>`. */
  function HeadFields(v: VehicleData): seq<Field> {
    [Field("    ", "id", IntToString(v.id)),
     Field("    ", "name", Escaping.EscapeXml(v.name))]
  }

  /** The lines inside `<coordinates>`. */
  function CoordFields(L: Literals, c: CoordData): seq<Field> {
    [Field("      ", "x", RealText(L, c.x)),
     Field("      ", "y", IntToString(c.y))]
  }

  /** The lines after `</coordinates>`. */
  function TailFields(L: Literals, v: VehicleData): seq<Field> {
    [Field("    ", "creationDate", L.showDate(v.creationDate)),
     Field("    ", "enginePower", RealText(L, v.enginePower)),
     Field("    ", "capacity", L.showReal(v.capacity)),
     Field("    ", "type", TypeText(v.vtype)),
     Field("    ", "fuelType", FuelText(v.fuelType))]
  }

  /** What lies between `<coordinates>` and `</coordinates>`. */
  function CoordGroup(L: Literals, c: CoordData): seq<Token> {
    [Chars("\n")] + FieldsTokens(CoordFields(L, c)) + [Chars("    ")]
  }

  /** What lies between `<vehicle>` and `</vehicle>`. */
  function VehicleGroup(L: Literals, v: VehicleData): seq<Token> {
    [Chars("\n")] + FieldsTokens(HeadFields(v)) +
    [Chars("    "), Open("coordinates")] + CoordGroup(L, v.coordinates) + [Close("coordinates"), Chars("\n")] +
    FieldsTokens(TailFields(L, v)) + [Chars("  ")]
  }

  function Block(L: Literals, v: VehicleData): seq<Token> {
    [Chars("  "), Open("vehicle")] + VehicleGroup(L, v) + [Close("vehicle"), Chars("\n")]
  }

  function Blocks(L: Literals, vs: seq<VehicleData>): seq<Token>
    decreases |vs|
  {
    if |vs| == 0 then [] else Block(L, vs[0]) + Blocks(L, vs[1..])
  }

  /** The declaration's text after `<?`. */
  const Declaration: string := "xml version=\"1.0\" encoding=\"UTF-8\"?>\n"

  function Header(): seq<Token> {
    [Decl(Declaration), Open("vehicles"), Chars("\n")]
  }

  /** The saved text: declaration, `<vehicles>`, one block per vehicle in order, `</vehicles>`. */
  function Document(L: Literals, vs: seq<VehicleData>): string {
    RenderAll(Header() + Blocks(L, vs) + [Close("vehicles")])
  }

  /**
    The text one iteration of `saveCollection`'s loop appends for `v`: the
    opening line, the id and name lines, the coordinates element, the five
    remaining field lines, the closing line.
  */
  function BlockText(L: Literals, v: VehicleData): string {
    "  <vehicle>\n" + Lines(HeadFields(v)) +
    "    <coordinates>\n" + Lines(CoordFields(L, v.coordinates)) + "    </coordinates>\n" +
    Lines(TailFields(L, v)) + "  </vehicle>\n"
  }

  // The fixed lines of a block as token renderings. They are separate lemmas so
  // that BlockRendered sees each literal equality once, outside its own context.

  lemma VehicleOpenLine()
    ensures RenderAll([Chars("  "), Open("vehicle"), Chars("\n")]) == "  <vehicle>\n"
  {
    RenderThree(Chars("  "), Open("vehicle"), Chars("\n"));
  }

  lemma VehicleCloseLine()
    ensures RenderAll([Chars("  "), Close("vehicle"), Chars("\n")]) == "  </vehicle>\n"
  {
    RenderThree(Chars("  "), Close("vehicle"), Chars("\n"));
  }

  lemma CoordinatesOpenLine()
    ensures RenderAll([Chars("    "), Open("coordinates"), Chars("\n")]) == "    <coordinates>\n"
  {
    RenderThree(Chars("    "), Open("coordinates"), Chars("\n"));
  }

  lemma CoordinatesCloseLine()
    ensures RenderAll([Chars("    "), Close("coordinates"), Chars("\n")]) == "    </coordinates>\n"
  {
    RenderThree(Chars("    "), Close("coordinates"), Chars("\n"));
  }

  lemma {:induction false} RenderPieces(a: seq<Token>, b: seq<Token>, c: seq<Token>, d: seq<Token>, e: seq<Token>, f: seq<Token>, g: seq<Token>)
    ensures RenderAll(a + b + c + d + e + f + g) ==
      RenderAll(a) + RenderAll(b) + RenderAll(c) + RenderAll(d) + RenderAll(e) + RenderAll(f) + RenderAll(g)
  {
    RenderAllAppend(a + b + c + d + e + f, g);
    RenderAllAppend(a + b + c + d + e, f);
    RenderAllAppend(a + b + c + d, e);
    RenderAllAppend(a + b + c, d);
    RenderAllAppend(a + b, c);
    RenderAllAppend(a, b);
  }

  lemma {:induction false} FrameTokens(head: seq<Token>, coords: seq<Token>, tail: seq<Token>)
    ensures [Chars("  "), Open("vehicle")] +
            ([Chars("\n")] + head + [Chars("    "), Open("coordinates")] + ([Chars("\n")] + coords + [Chars("    ")]) +
             [Close("coordinates"), Chars("\n")] + tail + [Chars("  ")]) +
            [Close("vehicle"), Chars("\n")] ==
            [Chars("  "), Open("vehicle"), Chars("\n")] + head + [Chars("    "), Open("coordinates"), Chars("\n")] + coords +
            [Chars("    "), Close("coordinates"), Chars("\n")] + tail + [Chars("  "), Close("vehicle"), Chars("\n")]
  {
  }

  /** The text the loop appends for `v` is the rendering of `v`'s block. */
  lemma {:induction false} BlockRendered(L: Literals, v: VehicleData)
    ensures RenderAll(Block(L, v)) == BlockText(L, v)
  {
    var head, coords, tail := FieldsTokens(HeadFields(v)), FieldsTokens(CoordFields(L, v.coordinates)), FieldsTokens(TailFields(L, v));
    FrameTokens(head, coords, tail);
    RenderPieces([Chars("  "), Open("vehicle"), Chars("\n")], head, [Chars("    "), Open("coordinates"), Chars("\n")], coords,
                 [Chars("    "), Close("coordinates"), Chars("\n")], tail, [Chars("  "), Close("vehicle"), Chars("\n")]);
    VehicleOpenLine();
    VehicleCloseLine();
    CoordinatesOpenLine();
    CoordinatesCloseLine();
    FieldsRendered(HeadFields(v));
    FieldsRendered(CoordFields(L, v.coordinates));
    FieldsRendered(TailFields(L, v));
  }

  lemma BlocksRegroup(h: seq<Token>, x: seq<Token>, y: seq<Token>)
    ensures h + (x + y) == (h + x) + y
  {
  }

  lemma {:induction false} BlocksAppend(L: Literals, a: seq<VehicleData>, b: seq<VehicleData>)
    ensures Blocks(L, a + b) == Blocks(L, a) + Blocks(L, b)
    decreases |a|
  {
    if |a| == 0 {
      assert a + b == b;
    } else {
      var h := Block(L, a[0]);
      assert (a + b)[1..] == a[1..] + b;
      assert Blocks(L, a + b) == h + Blocks(L, a[1..] + b);
      BlocksAppend(L, a[1..], b);
      BlocksRegroup(h, Blocks(L, a[1..]), Blocks(L, b));
    }
  }

  lemma {:induction false} BlocksSnoc(L: Literals, vs: seq<VehicleData>, i: nat)
    requires i < |vs|
    ensures Blocks(L, vs[..i + 1]) == Blocks(L, vs[..i]) + Block(L, vs[i])
  {
    assert vs[..i + 1] == vs[..i] + [vs[i]];
    BlocksAppend(L, vs[..i], [vs[i]]);
    assert Blocks(L, [vs[i]]) == Block(L, vs[i]) + Blocks(L, []) by {
      assert [vs[i]][1..] == [];
    }
  }

  lemma HeaderRendered()
    ensures RenderAll(Header()) == "<?" + Declaration + "<vehicles>\n"
  {
    RenderThree(Decl(Declaration), Open("vehicles"), Chars("\n"));
  }

  /** One iteration of the save loop extends the text by the next vehicle's lines. */
  lemma {:induction false} SaveStep(L: Literals, pre: seq<Token>, vs: seq<VehicleData>, i: nat, xml: string)
    requires i < |vs| && xml == RenderAll(pre + Blocks(L, vs[..i]))
    ensures xml + BlockText(L, vs[i]) == RenderAll(pre + Blocks(L, vs[..i + 1]))
  {
    BlocksSnoc(L, vs, i);
    RenderExtend(pre, Blocks(L, vs[..i]), Block(L, vs[i]), xml);
    BlockRendered(L, vs[i]);
  }

  lemma VehiclesCloseTag()
    ensures Render(Close("vehicles")) == "</vehicles>"
  {
  }

  /** Closing `</vehicles>` after the last block completes the document. */
  lemma {:induction false} SaveEnd(L: Literals, vs: seq<VehicleData>, xml: string)
    requires xml == RenderAll(Header() + Blocks(L, vs[..|vs|]))
    ensures xml + "</vehicles>" == Document(L, vs)
  {
    assert vs[..|vs|] == vs;
    RenderSnoc(Header() + Blocks(L, vs), Close("vehicles"));
    VehiclesCloseTag();
  }

  /** `saveCollection`'s text building: the header, one block per vehicle in order, the footer. */
  method SaveCollection(L: Literals, vs: seq<VehicleData>) returns (xml: string)
    ensures xml == Document(L, vs)
  {
    xml := "<?" + Declaration;
    xml := xml + "<vehicles>\n";
    assert xml == RenderAll(Header() + Blocks(L, vs[..0])) by {
      HeaderRendered();
      assert Header() + Blocks(L, vs[..0]) == Header();
    }
    for i := 0 to |vs|
      invariant xml == RenderAll(Header() + Blocks(L, vs[..i]))
    {
      var v := vs[i];
      var block := "  <vehicle>\n";
      block := block + Lines(HeadFields(v));
      block := block + "    <coordinates>\n";
      block := block + Lines(CoordFields(L, v.coordinates));
      block := block + "    </coordinates>\n";
      block := block + Lines(TailFields(L, v));
      block := block + "  </vehicle>\n";
      assert block == BlockText(L, v);
      SaveStep(L, Header(), vs, i, xml);
      xml := xml + block;
    }
    SaveEnd(L, vs, xml);
    xml := xml + "</vehicles>";
  }

  // ---------------------------------------------------------------------
  // The imperative parser, building objects through their setters.

  /** `parseCoordinates` on the tag texts: a new Coordinates whose x and y are set from the tags that are present. */
  method ParseCoordTags(L: Literals, t: CoordTags) returns (r: Result<Coordinates, ParseError>)
    ensures r.Ok? <==> DecodeCoordinates(L, t).Ok?
    ensures r.Err? ==> r.error == DecodeCoordinates(L, t).error
    ensures r.Ok? ==> fresh(r.value) && r.value.Value() == DecodeCoordinates(L, t).value
  {
    var coords := new Coordinates();
    if t.x.Some? {
      var x := L.parseReal(t.x.value);
      if x.None? {
        return Err(BadX);
      }
      if x.value > MaxX {
        return Err(XTooLarge);
      }
      var ok := coords.SetX(x);
    }
    if t.y.Some? {
      var y := ParseInt(t.y.value);
      if y.None? {
        return Err(BadY);
      }
      coords.SetY(y.value);
    }
    return Ok(coords);
  }

  /** `parseCoordinates`: look up `<x>` and `<y>`, then check and set them. */
  method ParseCoordinates(L: Literals, xml: string) returns (r: Result<Coordinates, ParseError>)
    ensures r.Ok? <==> DecodeCoordinates(L, CoordTagsOf(xml)).Ok?
    ensures r.Err? ==> r.error == DecodeCoordinates(L, CoordTagsOf(xml)).error
    ensures r.Ok? ==> fresh(r.value) && r.value.Value() == DecodeCoordinates(L, CoordTagsOf(xml)).value
  {
    var tags := CoordTagsOf(xml);
    r := ParseCoordTags(L, tags);
  }

  /** The error a decoding step stops with, if any. */
  function ErrorOf<T>(r: Result<T, ParseError>): Option<ParseError> {
    match r
    case Ok(_) => None
    case Err(e) => Some(e)
  }

  /** The `id` step of `parseVehicle`: an id that is present must be a positive `int`. */
  method LoadId(vehicle: Vehicle, idStr: Option<string>) returns (e: Option<ParseError>)
    requires vehicle.id == 0
    modifies vehicle`id
    ensures e == ErrorOf(DecodeId(idStr))
    ensures e.None? ==> vehicle.id == DecodeId(idStr).value
  {
    if idStr.Some? {
      var id := ParseInt(idStr.value);
      if id.None? {
        return Some(BadId);
      }
      if id.value <= 0 {
        return Some(NonPositiveId);
      }
      var ok := vehicle.SetId(id.value);
    }
    return None;
  }

  /** The `name` step: a missing or blank name stops the load. */
  method LoadName(vehicle: Vehicle, name: Option<string>) returns (e: Option<ParseError>)
    modifies vehicle`name
    ensures e == ErrorOf(DecodeName(name))
    ensures e.None? ==> vehicle.name == Some(DecodeName(name).value)
  {
    if name.None? || IsBlank(name.value) {
      return Some(BlankName);
    }
    var ok := vehicle.SetName(name);
    return None;
  }

  /** The `coordinates` step: the group is required and parsed into a new Coordinates. */
  method LoadCoordinates(L: Literals, vehicle: Vehicle, coordsXml: Option<CoordTags>) returns (e: Option<ParseError>)
    modifies vehicle`coordinates
    ensures e == ErrorOf(DecodeCoordinatesTag(L, coordsXml))
    ensures e.None? ==>
      fresh(vehicle.coordinates) && vehicle.coordinates.Value() == DecodeCoordinatesTag(L, coordsXml).value
  {
    if coordsXml.None? {
      return Some(NoCoordinates);
    }
    var coords := ParseCoordTags(L, coordsXml.value);
    if coords.Err? {
      return Some(coords.error);
    }
    var ok := vehicle.SetCoordinates(coords.value);
    return None;
  }

  /** The `creationDate` step: an absent date keeps the one the constructor set. */
  method LoadDate(L: Literals, today: Date, vehicle: Vehicle, dateStr: Option<string>) returns (e: Option<ParseError>)
    requires vehicle.creationDate == today
    modifies vehicle`creationDate
    ensures e == ErrorOf(DecodeDate(L, today, dateStr))
    ensures e.None? ==> vehicle.creationDate == DecodeDate(L, today, dateStr).value
  {
    if dateStr.Some? {
      var date := L.parseDate(dateStr.value);
      if date.None? {
        return Some(BadDate);
      }
      var ok := vehicle.SetCreationDate(date);
    }
    return None;
  }

  /** The `enginePower` step: a present power must parse and be positive. */
  method LoadEnginePower(L: Literals, vehicle: Vehicle, powerStr: Option<string>) returns (e: Option<ParseError>)
    requires vehicle.enginePower == None
    modifies vehicle`enginePower
    ensures e == ErrorOf(DecodeEnginePower(L, powerStr))
    ensures e.None? ==> vehicle.enginePower == DecodeEnginePower(L, powerStr).value
  {
    if powerStr.Some? {
      var power := L.parseReal(powerStr.value);
      if power.None? {
        return Some(BadEnginePower);
      }
      if power.value <= 0.0 {
        return Some(NonPositiveEnginePower);
      }
      var ok := vehicle.SetEnginePower(power);
    }
    return None;
  }

  /** The `capacity` step: a present capacity must parse and be positive. */
  method LoadCapacity(L: Literals, vehicle: Vehicle, capacityStr: Option<string>) returns (e: Option<ParseError>)
    requires vehicle.capacity == 0.0
    modifies vehicle`capacity
    ensures e == ErrorOf(DecodeCapacity(L, capacityStr))
    ensures e.None? ==> vehicle.capacity == DecodeCapacity(L, capacityStr).value
  {
    if capacityStr.Some? {
      var capacity := L.parseReal(capacityStr.value);
      if capacity.None? {
        return Some(BadCapacity);
      }
      if capacity.value <= 0.0 {
        return Some(NonPositiveCapacity);
      }
      var ok := vehicle.SetCapacity(capacity.value);
    }
    return None;
  }

  /** The `type` step: a name that is no VehicleType constant stops the load. */
  method LoadType(vehicle: Vehicle, typeStr: Option<string>) returns (e: Option<ParseError>)
    requires vehicle.vtype == None
    modifies vehicle`vtype
    ensures e == ErrorOf(DecodeType(typeStr))
    ensures e.None? ==> vehicle.vtype == DecodeType(typeStr).value
  {
    if typeStr.Some? {
      var vtype := VehicleTypes.ValueOf(typeStr.value);
      if vtype.None? {
        return Some(BadType);
      }
      var ok := vehicle.SetType(vtype);
    }
    return None;
  }

  /** The `fuelType` step: `null` and unknown names leave no fuel type; it never fails. */
  method LoadFuelType(vehicle: Vehicle, fuelStr: Option<string>)
    requires vehicle.fuelType == None
    modifies vehicle`fuelType
    ensures vehicle.fuelType == DecodeFuelType(fuelStr)
  {
    if fuelStr.Some? && fuelStr.value != "null" {
      vehicle.SetFuelType(FuelTypes.ValueOf(fuelStr.value));
    }
  }

  /** The steps after the coordinates, on a vehicle whose later fields still hold the constructor's values. */
  method LoadRest(L: Literals, today: Date, vehicle: Vehicle, t: VehicleTags,
                  ghost id: Int32, ghost name: string, ghost coords: CoordData) returns (e: Option<ParseError>)
    requires vehicle.Complete()
    requires vehicle.id == id && vehicle.name == Some(name) && vehicle.coordinates.Value() == coords
    requires vehicle.creationDate == today && vehicle.enginePower == None && vehicle.capacity == 0.0
    requires vehicle.vtype == None && vehicle.fuelType == None
    modifies vehicle`creationDate, vehicle`enginePower, vehicle`capacity, vehicle`vtype, vehicle`fuelType
    ensures e == ErrorOf(DecodeRest(L, today, t, id, name, coords))
    ensures e.None? ==> vehicle.Snapshot() == DecodeRest(L, today, t, id, name, coords).value
  {
    e := LoadDate(L, today, vehicle, t.creationDate);
    if e.Some? {
      return;
    }
    e := LoadEnginePower(L, vehicle, t.enginePower);
    if e.Some? {
      return;
    }
    e := LoadCapacity(L, vehicle, t.capacity);
    if e.Some? {
      return;
    }
    e := LoadType(vehicle, t.vtype);
    if e.Some? {
      return;
    }
    LoadFuelType(vehicle, t.fuelType);
  }

  /**
    `parseVehicle` on the tag texts of one block: a new Vehicle, each present
    field checked and then passed to its setter.
  */
  method ParseTags(L: Literals, today: Date, t: VehicleTags) returns (r: Result<Vehicle, ParseError>)
    ensures r.Ok? <==> DecodeTags(L, today, t).Ok?
    ensures r.Err? ==> r.error == DecodeTags(L, today, t).error
    ensures r.Ok? ==> fresh(r.value) && r.value.Complete() && fresh(r.value.coordinates)
    ensures r.Ok? ==> r.value.Snapshot() == DecodeTags(L, today, t).value
  {
    var vehicle := new Vehicle(today);
    var e := LoadId(vehicle, t.id);
    if e.Some? {
      return Err(e.value);
    }
    e := LoadName(vehicle, t.name);
    if e.Some? {
      return Err(e.value);
    }
    e := LoadCoordinates(L, vehicle, t.coordinates);
    if e.Some? {
      return Err(e.value);
    }
    e := LoadRest(L, today, vehicle, t, DecodeId(t.id).value, DecodeName(t.name).value,
                  DecodeCoordinatesTag(L, t.coordinates).value);
    if e.Some? {
      return Err(e.value);
    }
    return Ok(vehicle);
  }

  /** `parseVehicle`: look up the block's tags, then check and set them in order. */
  method ParseVehicle(L: Literals, today: Date, xml: string) returns (r: Result<Vehicle, ParseError>)
    ensures r.Ok? <==> DecodeVehicle(L, today, xml).Ok?
    ensures r.Err? ==> r.error == DecodeVehicle(L, today, xml).error
    ensures r.Ok? ==> fresh(r.value) && r.value.Complete() && fresh(r.value.coordinates)
    ensures r.Ok? ==> r.value.Snapshot() == DecodeVehicle(L, today, xml).value
  {
    var tags := TagsOf(xml);
    r := ParseTags(L, today, tags);
  }

  /** Puts `done` in front of a successful result; an error stays the error. */
  function Prepend(done: seq<VehicleData>, r: Result<seq<VehicleData>, ParseError>): Result<seq<VehicleData>, ParseError> {
    match r
    case Ok(vs) => Ok(done + vs)
    case Err(e) => Err(e)
  }

  lemma {:induction false} PrependNothing(r: Result<seq<VehicleData>, ParseError>)
    ensures Prepend([], r) == r
  {
    if r.Ok? {
      assert [] + r.value == r.value;
    }
  }

  /** `DecodeVehicles` at a position where a `<vehicle>` element is found. */
  lemma {:induction false} VehiclesUnfold(L: Literals, today: Date, xml: string, pos: nat, sp: Span)
    requires pos <= |xml| && FindElement(xml, "vehicle", pos) == Some(sp)
    ensures DecodeVehicles(L, today, xml, pos)
         == Cons(DecodeVehicle(L, today, xml[sp.start..sp.end]), DecodeVehicles(L, today, xml, sp.next))
  {
  }

  /** Vehicles already pushed, then one more block: the failure of the block ends the load. */
  lemma {:induction false} PrependCons(collection: seq<VehicleData>, block: Result<VehicleData, ParseError>,
                    rest: Result<seq<VehicleData>, ParseError>)
    ensures block.Err? ==> Prepend(collection, Cons(block, rest)) == Err(block.error)
    ensures block.Ok? ==> Prepend(collection + [block.value], rest) == Prepend(collection, Cons(block, rest))
  {
    if block.Ok? && rest.Ok? {
      assert collection + ([block.value] + rest.value) == collection + [block.value] + rest.value;
    }
  }

  /** One step of `parseVehicles`, stated on the decoding functions. */
  lemma {:induction false} VehiclesStep(L: Literals, today: Date, xml: string, pos: nat, sp: Span,
                     block: Result<VehicleData, ParseError>, collection: seq<VehicleData>)
    requires pos <= |xml| && FindElement(xml, "vehicle", pos) == Some(sp)
    requires block == DecodeVehicle(L, today, xml[sp.start..sp.end])
    requires Prepend(collection, DecodeVehicles(L, today, xml, pos)) == DecodeVehicles(L, today, xml, 0)
    ensures block.Err? ==> DecodeVehicles(L, today, xml, 0) == Err(block.error)
    ensures block.Ok? ==>
      Prepend(collection + [block.value], DecodeVehicles(L, today, xml, sp.next)) == DecodeVehicles(L, today, xml, 0)
  {
    VehiclesUnfold(L, today, xml, pos, sp);
    PrependCons(collection, block, DecodeVehicles(L, today, xml, sp.next));
  }

  /** `parseVehicle` followed by taking the value of the new object, as `parseVehicles` stores it. */
  method ParseBlock(L: Literals, today: Date, xml: string) returns (r: Result<VehicleData, ParseError>)
    ensures r == DecodeVehicle(L, today, xml)
  {
    var vehicle := ParseVehicle(L, today, xml);
    if vehicle.Err? {
      return Err(vehicle.error);
    }
    return Ok(vehicle.value.Snapshot());
  }

  /**
    `parseVehicles`: while a further `<vehicle>` block is found, parse it
    and push the vehicle; the first failure ends the load with no collection.
  */
  method ParseVehicles(L: Literals, today: Date, xml: string) returns (r: Result<seq<VehicleData>, ParseError>)
    ensures r == DecodeVehicles(L, today, xml, 0)
  {
    var collection: seq<VehicleData> := [];
    var pos: nat := 0;
    var found := FindElement(xml, "vehicle", pos);
    assert Prepend(collection, DecodeVehicles(L, today, xml, pos)) == DecodeVehicles(L, today, xml, 0) by {
      PrependNothing(DecodeVehicles(L, today, xml, 0));
    }
    while found.Some?
      invariant pos <= |xml| && found == FindElement(xml, "vehicle", pos)
      invariant Prepend(collection, DecodeVehicles(L, today, xml, pos)) == DecodeVehicles(L, today, xml, 0)
      decreases |xml| - pos
    {
      var sp := found.value;
      var block := ParseBlock(L, today, xml[sp.start..sp.end]);
      VehiclesStep(L, today, xml, pos, sp, block, collection);
      if block.Err? {
        return Err(block.error);
      }
      collection := collection + [block.value];
      pos := sp.next;
      found := FindElement(xml, "vehicle", pos);
    }
    assert DecodeVehicles(L, today, xml, pos) == Ok([]);
    assert collection + [] == collection;
    return Ok(collection);
  }
}
