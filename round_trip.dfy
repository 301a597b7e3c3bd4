/**
  Saving and loading again. Reading a saved `<vehicle>` block gives back the
  vehicle with its name escaped and trimmed, unless one of `parseVehicle`'s
  checks rejects a value the store may hold (a missing x, engine power or
  type, a zero id or capacity, ...); reading a saved document gives back
  the blocks in order, or the first block's failure.
*/
module RoundTrip {
  import opened Wrappers
  import opened Numbers
  import opened Text
  import VehicleTypes
  import FuelTypes
  import opened Coords
  import opened Vehicles
  import Escaping
  import opened Markup
  import opened Fields
  import opened FileManager

  // ---------------------------------------------------------------------
  // What one saved block reads back as.

  /** The text `extractTag` finds for each tag of the block saved for `v`. */
  function SavedTags(L: Literals, v: VehicleData): VehicleTags {
    VehicleTags(
      Some(IntToString(v.id)), Some(Trim(Escaping.EscapeXml(v.name))),
      Some(CoordTags(Some(RealText(L, v.coordinates.x)), Some(IntToString(v.coordinates.y)))),
      Some(L.showDate(v.creationDate)), Some(RealText(L, v.enginePower)), Some(L.showReal(v.capacity)),
      Some(TypeText(v.vtype)), Some(FuelText(v.fuelType)))
  }

  /**
    The decimals saved for `v` read back as themselves: its x and engine
    power when present, and its capacity. The store holds doubles, which
    `Double.toString` and `Double.parseDouble` round-trip.
  */
  predicate SavedRealsOk(L: Literals, v: VehicleData) {
    OptRealRoundTrips(L, v.coordinates.x) && OptRealRoundTrips(L, v.enginePower) && RealRoundTrips(L, v.capacity)
  }

  /** `SavedRealsOk` for every vehicle of a collection. */
  predicate AllSavedRealsOk(L: Literals, vs: seq<VehicleData>) {
    forall i :: 0 <= i < |vs| ==> SavedRealsOk(L, vs[i])
  }

  lemma {:induction false} AllSavedRealsTail(L: Literals, vs: seq<VehicleData>)
    requires AllSavedRealsOk(L, vs) && |vs| > 0
    ensures AllSavedRealsOk(L, vs[1..])
  {
    forall i | 0 <= i < |vs[1..]| ensures SavedRealsOk(L, vs[1..][i]) {
      assert vs[1..][i] == vs[i + 1];
    }
  }

  /** The vehicle a saved block reads back as: the name stays escaped and is trimmed. */
  function Reloaded(v: VehicleData): VehicleData {
    v.(name := Trim(Escaping.EscapeXml(v.name)))
  }

  /**
    The first check of `parseVehicle` that rejects what was saved for `v`, in
    the order the checks run. An absent x, engine power or type is saved as
    `null`, which does not read back.
  */
  function Problem(v: VehicleData): Option<ParseError> {
    if v.id <= 0 then Some(NonPositiveId)
    else if IsBlank(v.name) then Some(BlankName)
    else if v.coordinates.x.None? then Some(BadX)
    else if v.coordinates.x.value > MaxX then Some(XTooLarge)
    else if v.enginePower.None? then Some(BadEnginePower)
    else if v.enginePower.value <= 0.0 then Some(NonPositiveEnginePower)
    else if v.capacity <= 0.0 then Some(NonPositiveCapacity)
    else if v.vtype.None? then Some(BadType)
    else None
  }

  /** Reading back the block saved for `v`. */
  function Reload(v: VehicleData): Result<VehicleData, ParseError> {
    match Problem(v)
    case Some(e) => Err(e)
    case None => Ok(Reloaded(v))
  }

  /** A trimmed text is blank exactly when the text is. */
  lemma {:induction false} TrimKeepsBlank(s: string)
    ensures IsBlank(Trim(s)) <==> IsBlank(s)
  {
    var t := Trim(s);
    BlankIffAllSpace(t);
    if t != [] {
      assert !IsSpace(t[|t| - 1]);
    }
  }

  /** The id check on the saved text: the id reads back, and must be positive. */
  lemma {:induction false} DecodeSavedId(v: VehicleData)
    ensures DecodeId(Some(IntToString(v.id))) == if v.id <= 0 then Err(NonPositiveId) else Ok(v.id)
  {
    ParseIntRoundTrip(v.id);
  }

  /** The name check on the saved text: the escaped, trimmed name is blank exactly when the name is. */
  lemma {:induction false} DecodeSavedName(v: VehicleData)
    ensures DecodeName(Some(Trim(Escaping.EscapeXml(v.name)))) ==
      if IsBlank(v.name) then Err(BlankName) else Ok(Reloaded(v).name)
  {
    TrimKeepsBlank(Escaping.EscapeXml(v.name));
    Escaping.EscapeKeepsBlank(v.name);
  }

  /** The coordinates check on the saved texts: x must be present and at most 636, y reads back. */
  lemma {:induction false} DecodeSavedCoordinates(L: Literals, c: CoordData)
    requires ValidLiterals(L) && OptRealRoundTrips(L, c.x)
    ensures DecodeCoordinatesTag(L, Some(CoordTags(Some(RealText(L, c.x)), Some(IntToString(c.y))))) ==
      if c.x.None? then Err(BadX) else if c.x.value > MaxX then Err(XTooLarge) else Ok(c)
  {
    ParseIntRoundTrip(c.y);
  }

  /** The date, engine power, capacity, type and fuel type steps on the saved texts. */
  lemma {:induction false} DecodeSavedRest(L: Literals, today: Date, v: VehicleData, t: VehicleTags, id: Int32, name: string, coords: CoordData)
    requires ValidLiterals(L) && OptRealRoundTrips(L, v.enginePower) && RealRoundTrips(L, v.capacity)
    requires t.creationDate == Some(L.showDate(v.creationDate)) && t.enginePower == Some(RealText(L, v.enginePower))
    requires t.capacity == Some(L.showReal(v.capacity)) && t.vtype == Some(TypeText(v.vtype)) && t.fuelType == Some(FuelText(v.fuelType))
    ensures DecodeRest(L, today, t, id, name, coords) ==
      (if v.enginePower.None? then Err(BadEnginePower)
       else if v.enginePower.value <= 0.0 then Err(NonPositiveEnginePower)
       else if v.capacity <= 0.0 then Err(NonPositiveCapacity)
       else if v.vtype.None? then Err(BadType)
       else Ok(VehicleData(id, name, coords, v.creationDate, v.enginePower, v.capacity, v.vtype, v.fuelType)))
  {
    assert DecodeDate(L, today, t.creationDate) == Ok(v.creationDate);
    assert DecodeCapacity(L, t.capacity) == (if v.capacity <= 0.0 then Err(NonPositiveCapacity) else Ok(v.capacity));
    match v.vtype
    case None =>
    case Some(k) => VehicleTypes.ValueOfName(k);
    match v.fuelType
    case None =>
    case Some(f) => FuelTypes.ValueOfName(f);
  }

  /** The saved texts decode to the vehicle with its escaped name, or to the first check that fails. */
  lemma {:induction false} DecodeSaved(L: Literals, today: Date, v: VehicleData)
    requires ValidLiterals(L) && SavedRealsOk(L, v)
    ensures DecodeTags(L, today, SavedTags(L, v)) == Reload(v)
  {
    var t := SavedTags(L, v);
    DecodeSavedId(v);
    if v.id > 0 {
      DecodeSavedName(v);
      if !IsBlank(v.name) {
        DecodeSavedCoordinates(L, v.coordinates);
        if v.coordinates.x.Some? && v.coordinates.x.value <= MaxX {
          assert DecodeTags(L, today, t) == DecodeRest(L, today, t, v.id, Reloaded(v).name, v.coordinates);
          DecodeSavedRest(L, today, v, t, v.id, Reloaded(v).name, v.coordinates);
        }
      }
    }
  }

  // ---------------------------------------------------------------------
  // What `extractTag` finds in one saved block.

  /** A field text that holds no markup and that `trim` leaves alone. */
  predicate Tidy(s: string) {
    NoLt(s) && Trim(s) == s
  }

  lemma {:induction false} IntTidy(n: int)
    ensures Tidy(IntToString(n))
  {
    var s := IntToString(n);
    IntToStringShape(n);
    assert NoLt(s) by {
      forall k | 0 <= k < |s| ensures s[k] != '<' {
        assert s[k] == '-' || IsDigit(s[k]);
      }
    }
    TrimOfTrimmed(s);
  }

  lemma {:induction false} NullTidy()
    ensures Tidy("null")
  {
    var n := "null";
    forall k | 0 <= k < |n| ensures n[k] != '<' {
      assert k == 0 || k == 1 || k == 2 || k == 3;
    }
    TrimOfTrimmed(n);
  }

  lemma {:induction false} RealTextTidy(L: Literals, x: Option<real>)
    requires OptRealRoundTrips(L, x)
    ensures Tidy(RealText(L, x))
  {
    match x
    case None => NullTidy();
    case Some(r) =>
      assert Plain(L.showReal(r));
      TrimOfTrimmed(L.showReal(r));
  }

  lemma {:induction false} WordTidy(w: string)
    requires w != [] && forall k :: 0 <= k < |w| ==> 'A' <= w[k] <= 'Z'
    ensures Tidy(w)
  {
    TrimOfTrimmed(w);
  }

  lemma {:induction false} TypeTextTidy(t: Option<VehicleTypes.VehicleType>)
    ensures Tidy(TypeText(t))
  {
    match t
    case None => NullTidy();
    case Some(k) => VehicleTypes.NameIsWord(k); WordTidy(VehicleTypes.Name(k));
  }

  lemma {:induction false} FuelTextTidy(f: Option<FuelTypes.FuelType>)
    ensures Tidy(FuelText(f))
  {
    match f
    case None => NullTidy();
    case Some(k) => FuelTypes.NameIsWord(k); WordTidy(FuelTypes.Name(k));
  }

  lemma {:induction false} EscapedNoLt(s: string)
    ensures NoLt(Escaping.EscapeXml(s))
  {
    var t := Escaping.EscapeXml(s);
    Escaping.EscapedIsClean(s);
    forall k | 0 <= k < |t| ensures t[k] != '<' {
      assert Escaping.CleanAt(t, k);
    }
  }

  // ---------------------------------------------------------------------
  // A saved block's lines, over any texts of the right form.

  /** The id and name lines. */
  predicate HeadShape(fh: seq<Field>) {
    |fh| == 2 && fh[0].indent == "    " && fh[0].tag == "id" && fh[1].indent == "    " && fh[1].tag == "name" &&
    NoLt(fh[0].text) && NoLt(fh[1].text)
  }

  /** The x and y lines. */
  predicate CoordShape(fc: seq<Field>) {
    |fc| == 2 && fc[0].indent == "      " && fc[0].tag == "x" && fc[1].indent == "      " && fc[1].tag == "y" &&
    NoLt(fc[0].text) && NoLt(fc[1].text)
  }

  /** The five lines after the coordinates. */
  predicate TailShape(ft: seq<Field>) {
    |ft| == 5 &&
    ft[0].tag == "creationDate" && ft[1].tag == "enginePower" && ft[2].tag == "capacity" &&
    ft[3].tag == "type" && ft[4].tag == "fuelType" &&
    forall k :: 0 <= k < 5 ==> ft[k].indent == "    " && NoLt(ft[k].text)
  }

  function CoordsGroup(fc: seq<Field>): seq<Token> {
    [Chars("\n")] + FieldsTokens(fc) + [Chars("    ")]
  }

  /** What lies between `<vehicle>` and `</vehicle>`, for the given lines. */
  function Group(fh: seq<Field>, fc: seq<Field>, ft: seq<Field>): seq<Token> {
    [Chars("\n")] + FieldsTokens(fh) + [Chars("    "), Open("coordinates")] + CoordsGroup(fc) +
    [Close("coordinates"), Chars("\n")] + FieldsTokens(ft) + [Chars("  ")]
  }

  lemma {:induction false} Indents()
    ensures NoLt("  ") && NoLt("    ") && NoLt("      ")
  {
    var a, b, c := "    ", "      ", "  ";
    forall k | 0 <= k < |c| ensures c[k] != '<' {
      assert k == 0 || k == 1;
    }
    forall k | 0 <= k < |a| ensures a[k] != '<' {
      assert k == 0 || k == 1 || k == 2 || k == 3;
    }
    forall k | 0 <= k < |b| ensures b[k] != '<' {
      assert k == 0 || k == 1 || k == 2 || k == 3 || k == 4 || k == 5;
    }
  }

  lemma {:induction false} HeadOk(fh: seq<Field>)
    requires HeadShape(fh)
    ensures AllFieldsOk(fh)
  {
    Indents();
    assert ValidName("id") && ValidName("name");
  }

  lemma {:induction false} CoordOk(fc: seq<Field>)
    requires CoordShape(fc)
    ensures AllFieldsOk(fc)
  {
    Indents();
    assert ValidName("x") && ValidName("y");
  }

  lemma {:induction false} TailNames()
    ensures ValidName("creationDate") && ValidName("enginePower") && ValidName("capacity")
    ensures ValidName("type") && ValidName("fuelType")
  {
  }

  lemma {:induction false} TailOk(ft: seq<Field>)
    requires TailShape(ft)
    ensures AllFieldsOk(ft)
  {
    Indents();
    TailNames();
  }

  lemma {:induction false} JoinWellFormed(a: seq<Token>, b: seq<Token>)
    requires AllWellFormed(a) && AllWellFormed(b)
    ensures AllWellFormed(a + b)
  {
    forall k | 0 <= k < |a + b| ensures WellFormed((a + b)[k]) {
      if k < |a| {
        assert (a + b)[k] == a[k];
      } else {
        assert (a + b)[k] == b[k - |a|];
      }
    }
  }

  // ---------------------------------------------------------------------
  // What `extractTag` finds in the lines of a block.

  /** The tokens in front of the id and name lines hold no tag. */
  lemma {:induction false} LineBreak()
    ensures AllWellFormed([Chars("\n")]) && AllWellFormed([Chars("\n"), Chars("      ")])
  {
    var n := "\n";
    forall k | 0 <= k < |n| ensures n[k] != '<' {
      assert k == 0;
    }
    Indents();
  }

  lemma {:induction false} HeadTag(fh: seq<Field>, fc: seq<Field>, ft: seq<Field>, k: nat)
    requires HeadShape(fh) && k < 2
    ensures ExtractTag(RenderAll(Group(fh, fc, ft)), fh[k].tag) == Some(Trim(fh[k].text))
  {
    var post := [Chars("    "), Open("coordinates")] + CoordsGroup(fc) + [Close("coordinates"), Chars("\n")] +
                FieldsTokens(ft) + [Chars("  ")];
    assert Group(fh, fc, ft) == [Chars("\n")] + FieldsTokens(fh) + post;
    HeadOk(fh);
    LineBreak();
    assert "id" != "name";
    ExtractField([Chars("\n")], fh, k, post);
  }

  /** The lines before the tail are well formed and hold no opening tag of the tail's names. */
  lemma {:induction false} BeforeTail(fh: seq<Field>, fc: seq<Field>, t: string)
    requires HeadShape(fh) && CoordShape(fc)
    requires t != "id" && t != "name" && t != "coordinates" && t != "x" && t != "y"
    ensures var pre := [Chars("\n")] + FieldsTokens(fh) + [Chars("    "), Open("coordinates")] +
                       CoordsGroup(fc) + [Close("coordinates"), Chars("\n")];
      AllWellFormed(pre) && Open(t) !in pre && Close(t) !in pre
  {
    var lf, ind := [Chars("\n")], [Chars("    ")];
    HeadOk(fh);
    CoordOk(fc);
    FieldsWellFormed(fh);
    FieldsWellFormed(fc);
    FieldsTags(fh, t);
    FieldsTags(fc, t);
    LineBreak();
    Indents();
    assert ValidName("coordinates");
    JoinWellFormed(lf, FieldsTokens(fc));
    JoinWellFormed(lf + FieldsTokens(fc), ind);
    JoinWellFormed(lf, FieldsTokens(fh));
    JoinWellFormed(lf + FieldsTokens(fh), [Chars("    "), Open("coordinates")]);
    JoinWellFormed(lf + FieldsTokens(fh) + [Chars("    "), Open("coordinates")], CoordsGroup(fc));
    JoinWellFormed(lf + FieldsTokens(fh) + [Chars("    "), Open("coordinates")] + CoordsGroup(fc),
                   [Close("coordinates"), Chars("\n")]);
  }

  /** No tail tag is an earlier one's, nor one of the tags before the tail. */
  lemma {:induction false} TailNamesDistinct(ft: seq<Field>, k: nat)
    requires TailShape(ft) && k < 5
    ensures forall j :: 0 <= j < k ==> ft[j].tag != ft[k].tag
    ensures var t := ft[k].tag; t != "id" && t != "name" && t != "coordinates" && t != "x" && t != "y"
  {
    assert "capacity"[0] != "fuelType"[0];
    assert "type"[0] != "name"[0];
  }

  lemma {:induction false} TailTag(fh: seq<Field>, fc: seq<Field>, ft: seq<Field>, k: nat)
    requires HeadShape(fh) && CoordShape(fc) && TailShape(ft) && k < 5
    ensures ExtractTag(RenderAll(Group(fh, fc, ft)), ft[k].tag) == Some(Trim(ft[k].text))
  {
    var pre := [Chars("\n")] + FieldsTokens(fh) + [Chars("    "), Open("coordinates")] +
               CoordsGroup(fc) + [Close("coordinates"), Chars("\n")];
    assert Group(fh, fc, ft) == pre + FieldsTokens(ft) + [Chars("  ")];
    TailNamesDistinct(ft, k);
    BeforeTail(fh, fc, ft[k].tag);
    TailOk(ft);
    ExtractField(pre, ft, k, [Chars("  ")]);
  }

  /** `<coordinates>` holds the x and y lines; nothing before it opens that tag. */
  lemma CoordinatesName()
    ensures ValidName("coordinates")
  {
  }

  lemma {:induction false} CoordinatesTag(fh: seq<Field>, fc: seq<Field>, ft: seq<Field>)
    requires HeadShape(fh) && CoordShape(fc)
    ensures ExtractTag(RenderAll(Group(fh, fc, ft)), "coordinates") == Some(Trim(RenderAll(CoordsGroup(fc))))
  {
    var lf, ind := [Chars("\n")], [Chars("    ")];
    var pre, mid, post := lf + FieldsTokens(fh) + ind, CoordsGroup(fc), lf + FieldsTokens(ft) + [Chars("  ")];
    assert Group(fh, fc, ft) == [] + pre + [Open("coordinates")] + mid + [Close("coordinates")] + post;
    HeadOk(fh);
    CoordOk(fc);
    FieldsWellFormed(fh);
    FieldsWellFormed(fc);
    FieldsTags(fh, "coordinates");
    FieldsTags(fc, "coordinates");
    LineBreak();
    Indents();
    CoordinatesName();
    JoinWellFormed(lf, FieldsTokens(fh));
    JoinWellFormed(lf + FieldsTokens(fh), ind);
    JoinWellFormed(lf, FieldsTokens(fc));
    JoinWellFormed(lf + FieldsTokens(fc), ind);
    ExtractOfTokens(RenderAll(Group(fh, fc, ft)), [], pre, "coordinates", mid, post);
  }

  /** The x and y lines without the indentation before x and the line break after y. */
  function CoordsInner(fc: seq<Field>): seq<Token>
    requires |fc| == 2
  {
    [Open("x"), Chars(fc[0].text), Close("x"), Chars("\n"), Chars("      "), Open("y"), Chars(fc[1].text), Close("y")]
  }

  lemma {:induction false} CoordsSplit(fc: seq<Field>)
    requires CoordShape(fc)
    ensures CoordsGroup(fc) == [Chars("\n"), Chars("      ")] + CoordsInner(fc) + [Chars("\n"), Chars("    ")]
  {
    assert FieldsTokens(fc) == FieldTokens(fc[0]) + FieldsTokens(fc[1..]);
    assert FieldsTokens(fc[1..]) == FieldTokens(fc[1]) + FieldsTokens(fc[1..][1..]);
  }

  /** The inner text starts with the `<` of `<x>` and ends with the `>` of `</y>`. */
  lemma {:induction false} InnerEnds(fc: seq<Field>)
    requires |fc| == 2
    ensures var m := RenderAll(CoordsInner(fc)); m != [] && m[0] == '<' && m[|m| - 1] == '>'
  {
    var inner := CoordsInner(fc);
    assert inner == [Open("x")] + inner[1..];
    RenderCons(Open("x"), inner[1..]);
    TagChars(Open("x"));
    assert inner == inner[..7] + [Close("y")];
    RenderSnoc(inner[..7], Close("y"));
    TagChars(Close("y"));
  }

  /** A line break and some indentation render as spaces only. */
  lemma {:induction false} PaddingSpaces(ind: string)
    requires AllSpace(ind)
    ensures AllSpace(RenderAll([Chars("\n"), Chars(ind)]))
  {
    RenderCons(Chars("\n"), [Chars(ind)]);
    RenderChars(ind);
    var p := "\n" + ind;
    forall k | 0 <= k < |p| ensures IsSpace(p[k]) {
      if k > 0 {
        assert p[k] == ind[k - 1];
      }
    }
  }

  /** Trimming the coordinates group leaves `<x>…</x>`, a line break, indentation, `<y>…</y>`. */
  lemma {:induction false} CoordsTrimmed(fc: seq<Field>)
    requires CoordShape(fc)
    ensures Trim(RenderAll(CoordsGroup(fc))) == RenderAll(CoordsInner(fc))
  {
    var inner := CoordsInner(fc);
    var front, back := [Chars("\n"), Chars("      ")], [Chars("\n"), Chars("    ")];
    CoordsSplit(fc);
    RenderAllAppend(front + inner, back);
    RenderAllAppend(front, inner);
    assert AllSpace("      ") && AllSpace("    ");
    PaddingSpaces("      ");
    PaddingSpaces("    ");
    InnerEnds(fc);
    TrimPadded(RenderAll(front), RenderAll(inner), RenderAll(back));
  }

  /** `parseCoordinates` finds the x text, trimmed, first in the trimmed group. */
  lemma {:induction false} InnerX(fc: seq<Field>)
    requires CoordShape(fc)
    ensures ExtractTag(RenderAll(CoordsInner(fc)), "x") == Some(Trim(fc[0].text))
  {
    var inner, a := CoordsInner(fc), fc[0].text;
    var post := [Chars("\n"), Chars("      "), Open("y"), Chars(fc[1].text), Close("y")];
    assert ValidName("x");
    assert inner == [] + [] + [Open("x")] + [Chars(a)] + [Close("x")] + post;
    ExtractOfTokens(RenderAll(inner), [], [], "x", [Chars(a)], post);
    RenderChars(a);
  }

  /** `parseCoordinates` finds the y text, trimmed, after the x line. */
  lemma {:induction false} InnerY(fc: seq<Field>)
    requires CoordShape(fc)
    ensures ExtractTag(RenderAll(CoordsInner(fc)), "y") == Some(Trim(fc[1].text))
  {
    var inner, b := CoordsInner(fc), fc[1].text;
    var pre := [Open("x"), Chars(fc[0].text), Close("x"), Chars("\n"), Chars("      ")];
    LineBreak();
    assert ValidName("x") && ValidName("y") && "x" != "y";
    assert AllWellFormed(pre) by {
      JoinWellFormed([Open("x"), Chars(fc[0].text), Close("x")], [Chars("\n"), Chars("      ")]);
      assert pre == [Open("x"), Chars(fc[0].text), Close("x")] + [Chars("\n"), Chars("      ")];
    }
    assert inner == [] + pre + [Open("y")] + [Chars(b)] + [Close("y")] + [];
    ExtractOfTokens(RenderAll(inner), [], pre, "y", [Chars(b)], []);
    RenderChars(b);
  }

  /** The eight `extractTag` calls on a block find the trimmed texts of its lines. */
  lemma {:induction false} GroupTags(fh: seq<Field>, fc: seq<Field>, ft: seq<Field>)
    requires HeadShape(fh) && CoordShape(fc) && TailShape(ft)
    ensures TagsOf(RenderAll(Group(fh, fc, ft))) ==
      VehicleTags(Some(Trim(fh[0].text)), Some(Trim(fh[1].text)),
                  Some(CoordTags(Some(Trim(fc[0].text)), Some(Trim(fc[1].text)))),
                  Some(Trim(ft[0].text)), Some(Trim(ft[1].text)), Some(Trim(ft[2].text)),
                  Some(Trim(ft[3].text)), Some(Trim(ft[4].text)))
  {
    HeadTag(fh, fc, ft, 0);
    HeadTag(fh, fc, ft, 1);
    CoordinatesTag(fh, fc, ft);
    CoordsTrimmed(fc);
    InnerX(fc);
    InnerY(fc);
    TailTag(fh, fc, ft, 0);
    TailTag(fh, fc, ft, 1);
    TailTag(fh, fc, ft, 2);
    TailTag(fh, fc, ft, 3);
    TailTag(fh, fc, ft, 4);
  }

  lemma {:induction false} PlainTidy(s: string)
    requires Plain(s)
    ensures Tidy(s)
  {
    TrimOfTrimmed(s);
  }

  lemma {:induction false} HeadShapeOf(v: VehicleData)
    ensures HeadShape(HeadFields(v)) && Trim(IntToString(v.id)) == IntToString(v.id)
  {
    IntTidy(v.id);
    EscapedNoLt(v.name);
  }

  lemma {:induction false} CoordShapeOf(L: Literals, c: CoordData)
    requires OptRealRoundTrips(L, c.x)
    ensures CoordShape(CoordFields(L, c))
    ensures Trim(RealText(L, c.x)) == RealText(L, c.x) && Trim(IntToString(c.y)) == IntToString(c.y)
  {
    RealTextTidy(L, c.x);
    IntTidy(c.y);
  }

  lemma {:induction false} TailShapeOf(L: Literals, v: VehicleData)
    requires ValidLiterals(L) && SavedRealsOk(L, v)
    ensures TailShape(TailFields(L, v))
    ensures forall k :: 0 <= k < 5 ==> Trim(TailFields(L, v)[k].text) == TailFields(L, v)[k].text
  {
    PlainTidy(L.showDate(v.creationDate));
    RealTextTidy(L, v.enginePower);
    PlainTidy(L.showReal(v.capacity));
    TypeTextTidy(v.vtype);
    FuelTextTidy(v.fuelType);
  }

  /** The block saved for `v` gives `extractTag` back the texts that were written, the name trimmed. */
  lemma {:induction false} BlockTags(L: Literals, v: VehicleData)
    requires ValidLiterals(L) && SavedRealsOk(L, v)
    ensures TagsOf(RenderAll(VehicleGroup(L, v))) == SavedTags(L, v)
  {
    var fh, fc, ft := HeadFields(v), CoordFields(L, v.coordinates), TailFields(L, v);
    assert VehicleGroup(L, v) == Group(fh, fc, ft);
    HeadShapeOf(v);
    CoordShapeOf(L, v.coordinates);
    TailShapeOf(L, v);
    GroupTags(fh, fc, ft);
  }

  /** `parseVehicle` on the block `saveCollection` writes for `v`: `v` with its name escaped and trimmed, or the first failing check. */
  lemma {:induction false} ReloadBlock(L: Literals, today: Date, v: VehicleData)
    requires ValidLiterals(L) && SavedRealsOk(L, v)
    ensures DecodeVehicle(L, today, RenderAll(VehicleGroup(L, v))) == Reload(v)
  {
    BlockTags(L, v);
    DecodeSaved(L, today, v);
  }

  // ---------------------------------------------------------------------
  // Reading back a whole saved document.

  /** `parseVehicles` on what was saved: each vehicle reloaded in order, or the first failure. */
  function ReloadAll(vs: seq<VehicleData>): Result<seq<VehicleData>, ParseError>
    decreases |vs|
  {
    if |vs| == 0 then Ok([]) else Cons(Reload(vs[0]), ReloadAll(vs[1..]))
  }

  /** A block's lines are well formed and hold no `<vehicle>` or `</vehicle>`. */
  lemma {:induction false} GroupOk(fh: seq<Field>, fc: seq<Field>, ft: seq<Field>)
    requires HeadShape(fh) && CoordShape(fc) && TailShape(ft)
    ensures AllWellFormed(Group(fh, fc, ft)) && Open("vehicle") !in Group(fh, fc, ft) && Close("vehicle") !in Group(fh, fc, ft)
  {
    var pre := [Chars("\n")] + FieldsTokens(fh) + [Chars("    "), Open("coordinates")] +
               CoordsGroup(fc) + [Close("coordinates"), Chars("\n")];
    assert Group(fh, fc, ft) == pre + FieldsTokens(ft) + [Chars("  ")];
    BeforeTail(fh, fc, "vehicle");
    TailOk(ft);
    FieldsWellFormed(ft);
    FieldsTags(ft, "vehicle");
    Indents();
    JoinWellFormed(pre, FieldsTokens(ft));
    JoinWellFormed(pre + FieldsTokens(ft), [Chars("  ")]);
  }

  lemma {:induction false} VehicleGroupOk(L: Literals, v: VehicleData)
    requires ValidLiterals(L) && SavedRealsOk(L, v)
    ensures AllWellFormed(VehicleGroup(L, v)) && Close("vehicle") !in VehicleGroup(L, v)
  {
    var fh, fc, ft := HeadFields(v), CoordFields(L, v.coordinates), TailFields(L, v);
    assert VehicleGroup(L, v) == Group(fh, fc, ft);
    HeadShapeOf(v);
    CoordShapeOf(L, v.coordinates);
    TailShapeOf(L, v);
    GroupOk(fh, fc, ft);
  }

  /** The first saved block, then the rest. */
  lemma {:induction false} BlocksSplit(L: Literals, vs: seq<VehicleData>)
    requires |vs| > 0
    ensures Blocks(L, vs) == [Chars("  "), Open("vehicle")] + VehicleGroup(L, vs[0]) + [Close("vehicle"), Chars("\n")] + Blocks(L, vs[1..])
  {
  }

  /**
    The first `<t>` match after `done` is the group `g`, which the tokens
    `pre` in front of it do not open and which does not close; the search
    after it starts right after `</t>`.
  */
  lemma {:induction false} GroupFound(xml: string, done: seq<Token>, pre: seq<Token>, t: string, g: seq<Token>, post: seq<Token>)
      returns (sp: Span)
    requires ValidName(t)
    requires AllWellFormed(pre) && Open(t) !in pre
    requires AllWellFormed(g) && Close(t) !in g
    requires xml == RenderAll(done + pre + [Open(t)] + g + [Close(t)] + post)
    ensures |RenderAll(done)| <= |xml| && FindElement(xml, t, |RenderAll(done)|) == Some(sp)
    ensures sp.start <= sp.end <= |xml| && xml[sp.start..sp.end] == RenderAll(g)
    ensures sp.next == |RenderAll(done + pre + [Open(t)] + g + [Close(t)])|
  {
    var front := done + pre + [Open(t)];
    var d, p, d2, m := |RenderAll(done)|, |RenderAll(pre)|, |RenderAll(front)|, |RenderAll(g)|;
    FindElementOfTokens(xml, done, pre, t, g, post, d, p, d2, m);
    sp := Span(d2, d2 + m, d2 + m + |t| + 3);
    assert xml[sp.start..sp.end] == RenderAll(g) by {
      ElementGroup(xml, done, pre, t, g, post);
    }
    assert sp.next == |RenderAll(front + g + [Close(t)])| by {
      RenderAllAppend(front, g);
      RenderSnoc(front + g, Close(t));
      TagChars(Close(t));
    }
  }

  lemma {:induction false} BlockNames()
    ensures ValidName("vehicle") && ValidName("vehicles")
  {
  }

  /** Regrouping a saved block between what precedes it and what follows it. */
  lemma {:induction false} BlockTokens(done: seq<Token>, pre: seq<Token>, g: seq<Token>, rest: seq<Token>)
    ensures done + pre + ([Chars("  "), Open("vehicle")] + g + [Close("vehicle"), Chars("\n")] + rest) + [Close("vehicles")]
         == done + (pre + [Chars("  ")]) + [Open("vehicle")] + g + [Close("vehicle")] + ([Chars("\n")] + rest + [Close("vehicles")])
    ensures done + (pre + [Chars("  ")]) + [Open("vehicle")] + g + [Close("vehicle")] + ([Chars("\n")] + rest + [Close("vehicles")])
         == (done + (pre + [Chars("  ")]) + [Open("vehicle")] + g + [Close("vehicle")]) + [Chars("\n")] + rest + [Close("vehicles")]
  {
  }

  /** With no block left, `parseVehicles` finds no further `<vehicle>` and stops. */
  lemma {:induction false} DecodeEnd(L: Literals, today: Date, xml: string, done: seq<Token>, pre: seq<Token>)
    requires AllWellFormed(pre) && Open("vehicle") !in pre
    requires xml == RenderAll(done + pre + [Close("vehicles")])
    ensures |RenderAll(done)| <= |xml| && DecodeVehicles(L, today, xml, |RenderAll(done)|) == Ok([])
  {
    var ts := pre + [Close("vehicles")];
    BlockNames();
    JoinWellFormed(pre, [Close("vehicles")]);
    assert done + pre + [Close("vehicles")] == done + ts;
    FindNoElement(xml, done, ts, "vehicle", |RenderAll(done)|);
  }

  /** `parseVehicles` reads the next saved block as `Reload` of its vehicle, then goes on after it. */
  lemma {:induction false} DecodeStep(L: Literals, today: Date, xml: string, done: seq<Token>, pre: seq<Token>, vs: seq<VehicleData>)
      returns (done2: seq<Token>)
    requires ValidLiterals(L) && AllSavedRealsOk(L, vs) && |vs| > 0
    requires AllWellFormed(pre) && Open("vehicle") !in pre
    requires xml == RenderAll(done + pre + Blocks(L, vs) + [Close("vehicles")])
    ensures |RenderAll(done)| <= |xml| && |RenderAll(done2)| <= |xml|
    ensures xml == RenderAll(done2 + [Chars("\n")] + Blocks(L, vs[1..]) + [Close("vehicles")])
    ensures DecodeVehicles(L, today, xml, |RenderAll(done)|) ==
      Cons(Reload(vs[0]), DecodeVehicles(L, today, xml, |RenderAll(done2)|))
  {
    var g, rest := VehicleGroup(L, vs[0]), Blocks(L, vs[1..]);
    var pre2 := pre + [Chars("  ")];
    done2 := done + pre2 + [Open("vehicle")] + g + [Close("vehicle")];
    BlocksSplit(L, vs);
    BlockTokens(done, pre, g, rest);
    VehicleGroupOk(L, vs[0]);
    Indents();
    JoinWellFormed(pre, [Chars("  ")]);
    BlockNames();
    var sp := GroupFound(xml, done, pre2, "vehicle", g, [Chars("\n")] + rest + [Close("vehicles")]);
    VehiclesUnfold(L, today, xml, |RenderAll(done)|, sp);
    ReloadBlock(L, today, vs[0]);
  }

  /** The line break between two blocks is well formed and opens no block. */
  lemma LineBreakBetween()
    ensures AllWellFormed([Chars("\n")]) && Open("vehicle") !in [Chars("\n")]
  {
    LineBreak();
  }

  /** From any point in front of the saved blocks, `parseVehicles` reads them back in order. */
  lemma {:induction false} DecodeFrom(L: Literals, today: Date, xml: string, done: seq<Token>, pre: seq<Token>, vs: seq<VehicleData>)
    requires ValidLiterals(L) && AllSavedRealsOk(L, vs)
    requires AllWellFormed(pre) && Open("vehicle") !in pre
    requires xml == RenderAll(done + pre + Blocks(L, vs) + [Close("vehicles")])
    ensures |RenderAll(done)| <= |xml| && DecodeVehicles(L, today, xml, |RenderAll(done)|) == ReloadAll(vs)
    decreases |vs|
  {
    if |vs| == 0 {
      assert Blocks(L, vs) == [];
      NothingBetween(done + pre, Blocks(L, vs), [Close("vehicles")]);
      DecodeEnd(L, today, xml, done, pre);
    } else {
      var done2 := DecodeStep(L, today, xml, done, pre, vs);
      LineBreakBetween();
      AllSavedRealsTail(L, vs);
      DecodeFrom(L, today, xml, done2, [Chars("\n")], vs[1..]);
    }
  }

  // Sequence identities kept out of line: stated inside the large contexts of
  // DecodeFrom and DecodeAll they cost the solver far more than as calls.

  lemma NothingBetween(a: seq<Token>, b: seq<Token>, c: seq<Token>)
    requires b == []
    ensures a + b + c == a + c
  {
  }

  lemma NothingBefore(h: seq<Token>)
    ensures [] + h == h
  {
  }

  /** Reading from the start of a text whose blocks follow a header without `<vehicle>`. */
  lemma {:induction false} DecodeAll(L: Literals, today: Date, xml: string, h: seq<Token>, vs: seq<VehicleData>)
    requires ValidLiterals(L) && AllSavedRealsOk(L, vs)
    requires AllWellFormed(h) && Open("vehicle") !in h
    requires xml == RenderAll(h + Blocks(L, vs) + [Close("vehicles")])
    ensures DecodeVehicles(L, today, xml, 0) == ReloadAll(vs)
  {
    NothingBefore(h);
    DecodeFrom(L, today, xml, [], h, vs);
  }

  /** The declaration line holds no markup. */
  lemma {:induction false} HeaderOk()
    ensures AllWellFormed(Header()) && Open("vehicle") !in Header()
  {
    var t := Declaration;
    forall k | 0 <= k < |t| ensures t[k] != '<' {
      assert t[k] in {'x', 'm', 'l', ' ', 'v', 'e', 'r', 's', 'i', 'o', 'n', '=', '"', '1', '.', '0', 'c', 'd', 'g', 'U', 'T', 'F', '-', '8', '?', '>', '\n'};
    }
    BlockNames();
    LineBreak();
  }

  /**
    Loading a saved document: each vehicle comes back in order with its name
    escaped and trimmed, unless some vehicle fails a check, and then the
    first such vehicle's failure is the result.
  */
  lemma {:induction false} ReloadDocument(L: Literals, today: Date, vs: seq<VehicleData>)
    requires ValidLiterals(L) && AllSavedRealsOk(L, vs)
    ensures DecodeVehicles(L, today, Document(L, vs), 0) == ReloadAll(vs)
  {
    HeaderOk();
    DecodeAll(L, today, Document(L, vs), Header(), vs);
  }

  /** No vehicle of `vs` hits a check. */
  predicate NoProblems(vs: seq<VehicleData>) {
    forall i :: 0 <= i < |vs| ==> Problem(vs[i]).None?
  }

  lemma {:induction false} NoProblemsCons(vs: seq<VehicleData>)
    requires |vs| > 0
    ensures NoProblems(vs) <==> Problem(vs[0]).None? && NoProblems(vs[1..])
  {
    if Problem(vs[0]).None? && NoProblems(vs[1..]) {
      forall i | 0 < i < |vs| ensures Problem(vs[i]).None? {
        assert vs[i] == vs[1..][i - 1];
      }
    }
  }

  /** Loading the saved collection succeeds exactly when no vehicle hits a check. */
  lemma {:induction false} ReloadAllOk(vs: seq<VehicleData>)
    ensures ReloadAll(vs).Ok? <==> NoProblems(vs)
    decreases |vs|
  {
    if |vs| > 0 {
      ReloadAllOk(vs[1..]);
      NoProblemsCons(vs);
    }
  }

  /** A successful load yields every saved vehicle, in order, as `Reloaded`. */
  lemma {:induction false} ReloadAllValues(vs: seq<VehicleData>)
    requires ReloadAll(vs).Ok?
    ensures |ReloadAll(vs).value| == |vs|
    ensures forall i :: 0 <= i < |vs| ==> ReloadAll(vs).value[i] == Reloaded(vs[i])
    decreases |vs|
  {
    if |vs| > 0 {
      var rest := ReloadAll(vs[1..]);
      ReloadAllValues(vs[1..]);
      assert ReloadAll(vs).value == [Reloaded(vs[0])] + rest.value;
      forall i | 0 < i < |vs| ensures ReloadAll(vs).value[i] == Reloaded(vs[i]) {
        assert vs[i] == vs[1..][i - 1];
      }
    }
  }

  /** When loading the saved collection fails, it fails with the first vehicle that hits a check. */
  lemma {:induction false} ReloadAllErr(vs: seq<VehicleData>)
    ensures ReloadAll(vs).Err? ==>
      exists i :: 0 <= i < |vs| && Problem(vs[i]) == Some(ReloadAll(vs).error) &&
        forall j :: 0 <= j < i ==> Problem(vs[j]).None?
    decreases |vs|
  {
    if |vs| > 0 {
      var r, rest := Reload(vs[0]), ReloadAll(vs[1..]);
      ReloadAllErr(vs[1..]);
      if r.Err? {
        assert Problem(vs[0]) == Some(ReloadAll(vs).error);
      } else if rest.Err? {
        var i :| 0 <= i < |vs[1..]| && Problem(vs[1..][i]) == Some(rest.error) &&
          forall j :: 0 <= j < i ==> Problem(vs[1..][j]).None?;
        forall j | 0 <= j < i + 1 ensures Problem(vs[j]).None? {
          if j > 0 {
            assert vs[j] == vs[1..][j - 1];
          }
        }
        assert vs[i + 1] == vs[1..][i];
      }
    }
  }

  /**
    A name with none of the five escaped characters and no leading or
    trailing space comes back as it was saved.
  */
  lemma {:induction false} ReloadPlainName(v: VehicleData)
    requires v.name != [] && !IsSpace(v.name[0]) && !IsSpace(v.name[|v.name| - 1])
    requires forall k :: 0 <= k < |v.name| ==> !Escaping.Special(v.name[k])
    ensures Reloaded(v) == v
  {
    Escaping.EscapeOfPlain(v.name);
    TrimOfTrimmed(v.name);
  }

  /** Escaping is not undone on loading: a saved `R&D` comes back as `R&amp;D`. */
  lemma {:induction false} EscapedNameStaysEscaped(v: VehicleData)
    requires v.name == "R&D"
    ensures Reloaded(v).name == "R&amp;D" && Reloaded(v) != v
  {
    var n := v.name;
    Escaping.EscapeIsOnePass(n);
    assert Escaping.EscapeEach("D") == "D" by {
      assert "D"[1..] == [];
    }
    assert Escaping.EscapeEach("&D") == "&amp;D" by {
      assert "&D"[1..] == "D";
    }
    assert Escaping.EscapeEach(n) == "R&amp;D" by {
      assert n[1..] == "&D";
    }
    TrimOfTrimmed("R&amp;D");
  }

  /** As written, a valid vehicle named `R&D` saves and loads back as one named `R&amp;D`. */
  lemma {:induction false} AmpersandNameChanges(L: Literals, today: Date, v: VehicleData)
    requires ValidLiterals(L) && SavedRealsOk(L, v) && Problem(v).None? && v.name == "R&D"
    ensures DecodeVehicle(L, today, RenderAll(VehicleGroup(L, v))) == Ok(v.(name := "R&amp;D"))
    ensures DecodeVehicle(L, today, RenderAll(VehicleGroup(L, v))) != Ok(v)
  {
    ReloadBlock(L, today, v);
    EscapedNameStaysEscaped(v);
  }

  /**
    A vehicle that passes every check and whose name has no escaped character
    and no surrounding space loads back from its saved block as it was.
  */
  lemma {:induction false} PlainVehicleRoundTrip(L: Literals, today: Date, v: VehicleData)
    requires ValidLiterals(L) && SavedRealsOk(L, v) && Problem(v).None?
    requires v.name != [] && !IsSpace(v.name[0]) && !IsSpace(v.name[|v.name| - 1])
    requires forall k :: 0 <= k < |v.name| ==> !Escaping.Special(v.name[k])
    ensures DecodeVehicle(L, today, RenderAll(VehicleGroup(L, v))) == Ok(v)
  {
    ReloadBlock(L, today, v);
    ReloadPlainName(v);
  }

  // ---------------------------------------------------------------------
  // The corrected loader: the name read back is unescaped.

  /** What a saved block would read back as if the loader unescaped the name it finds. */
  function UnescapedReload(v: VehicleData): Result<VehicleData, ParseError> {
    match Reload(v)
    case Err(e) => Err(e)
    case Ok(w) => Ok(w.(name := Escaping.UnescapeXml(w.name)))
  }

  /**
    With the name unescaped on loading, every vehicle that passes the
    loader's checks and has no surrounding space in its name reads back as
    it was saved, whatever characters the name holds.
  */
  lemma {:induction false} UnescapedRoundTrip(L: Literals, today: Date, v: VehicleData)
    requires ValidLiterals(L) && SavedRealsOk(L, v) && Problem(v).None?
    requires v.name != [] && !IsSpace(v.name[0]) && !IsSpace(v.name[|v.name| - 1])
    ensures DecodeVehicle(L, today, RenderAll(VehicleGroup(L, v))).Ok?
    ensures UnescapedReload(v) == Ok(v)
  {
    ReloadBlock(L, today, v);
    var e := Escaping.EscapeXml(v.name);
    Escaping.EscapeEnds(v.name);
    TrimOfTrimmed(e);
    Escaping.UnescapeEscape(v.name);
  }

  // ---------------------------------------------------------------------
  // The assumptions on the literals can be met.

  /** A date written as its epoch day, as `Integer.toString` writes it. */
  function DayText(d: Date): string {
    IntToString(d.epochDay)
  }

  /** Reads back `DayText`: an optional `-` and at least one digit. */
  function ReadDay(s: string): Option<Date> {
    if s != [] && s[0] == '-' && s[1..] != [] && AllDigits(s[1..]) then Some(Date(0 - DigitsValue(s[1..])))
    else if s != [] && AllDigits(s) then Some(Date(DigitsValue(s)))
    else None
  }

  /** Literals that write every number as `1.0`, so that only the number one reads back. */
  function SampleLiterals(): Literals {
    Literals(x => "1.0", t => if t == "1.0" then Some(1.0) else None, DayText, ReadDay)
  }

  lemma {:induction false} DayTextRoundTrip(d: Date)
    ensures Plain(DayText(d)) && ReadDay(DayText(d)) == Some(d)
  {
    var s, n := DayText(d), d.epochDay;
    IntToStringShape(n);
    IntTidy(n);
    if n < 0 {
      assert s[1..] == NatToString(-n);
    } else {
      assert s == NatToString(n);
      assert IsDigit(s[0]);
    }
  }

  /** `ValidLiterals` holds of some literals, and under them the number one reads back. */
  lemma {:induction false} SampleLiteralsValid()
    ensures ValidLiterals(SampleLiterals()) && RealRoundTrips(SampleLiterals(), 1.0)
  {
    var L := SampleLiterals();
    forall d ensures Plain(L.showDate(d)) && L.parseDate(L.showDate(d)) == Some(d) {
      DayTextRoundTrip(d);
    }
    var one := "1.0";
    forall k | 0 <= k < |one| ensures one[k] != '<' {
      assert k == 0 || k == 1 || k == 2;
    }
  }

  /** A vehicle that passes every check and comes back unchanged loads back alone. */
  lemma {:induction false} ReloadOne(v: VehicleData)
    requires Problem(v).None? && Reloaded(v) == v
    ensures ReloadAll([v]) == Ok([v])
  {
    var one := [v];
    assert one[1..] == [];
    assert ReloadAll(one[1..]) == Ok([]);
    assert Reload(v) == Ok(v);
    assert ReloadAll(one) == Cons(Reload(v), ReloadAll(one[1..]));
    assert [v] + [] == one;
  }

  /** The vehicle `OneVehicleRoundTrip` saves passes every check and keeps its name. */
  lemma {:induction false} BusPasses(v: VehicleData)
    requires v.id == 1 && v.name == "Bus" && v.coordinates.x == Some(1.0) && v.enginePower == Some(1.0)
    requires v.capacity == 1.0 && v.vtype.Some?
    ensures Problem(v).None? && Reloaded(v) == v
  {
    assert !IsBlank(v.name) by {
      BlankIffAllSpace(v.name);
      assert !IsSpace(v.name[0]);
    }
    forall k | 0 <= k < |v.name| ensures !Escaping.Special(v.name[k]) {
      assert k == 0 || k == 1 || k == 2;
    }
    ReloadPlainName(v);
  }

  /**
    A saved one-vehicle document loads back as that vehicle: one named `Bus`
    that passes the loader's checks, with its decimals all one.
    `SampleLiteralsValid` shows literals meeting the requires exist.
  */
  lemma {:induction false} OneVehicleRoundTrip(L: Literals, today: Date, v: VehicleData)
    requires ValidLiterals(L) && RealRoundTrips(L, 1.0)
    requires v.id == 1 && v.name == "Bus" && v.coordinates.x == Some(1.0) && v.enginePower == Some(1.0)
    requires v.capacity == 1.0 && v.vtype.Some?
    ensures DecodeVehicles(L, today, Document(L, [v]), 0) == Ok([v])
  {
    assert AllSavedRealsOk(L, [v]) by {
      assert SavedRealsOk(L, [v][0]);
    }
    BusPasses(v);
    ReloadOne(v);
    ReloadDocument(L, today, [v]);
  }

  /** The one-vehicle round trip under `SampleLiterals`, where every assumption is proved rather than supposed. */
  lemma {:induction false} SampleRoundTrip(today: Date, v: VehicleData)
    requires v.id == 1 && v.name == "Bus" && v.coordinates.x == Some(1.0) && v.enginePower == Some(1.0)
    requires v.capacity == 1.0 && v.vtype.Some?
    ensures DecodeVehicles(SampleLiterals(), today, Document(SampleLiterals(), [v]), 0) == Ok([v])
  {
    SampleLiteralsValid();
    OneVehicleRoundTrip(SampleLiterals(), today, v);
  }
}
