# Vehicle collection: store, entity model and XML codec

A Dafny model of the core of a console application that keeps a collection
of vehicles in memory and saves it to, and loads it from, an XML-like text
file. The model covers:

- **Collection store** (`Collection`). `CollectionManager` holds a sequence
  of vehicles that is used both as a stack and as a table keyed by id. Its
  operations are `add`, `updateById`, `removeById`, `clear`, `removeLast`,
  `removeLower`, `sort`, `filterLessThanType`, `containsId`,
  `getSumOfCapacity` and `filterByCapacity`.
- **Entity model** (`Vehicles`, `Coords`, `VehicleTypes`, `FuelTypes`).
  `Vehicle` and `Coordinates` are classes whose validating setters refuse a
  value before assigning it. `VehicleData` and `CoordData` are the values
  the store keeps. The two enums are listed in declaration order, with
  `getTypes`.
- **Validators** (`InputValidator`). These are the console's field checks,
  stated as `Pass`/`Fail` outcomes.
- **Identifier allocator** (`Ids`). It has a scan-based `generateId(c)` and
  a counter mode, `generateId()` and `updateLastId`; the counter is the
  field of the `IdGenerator` class.
- **Codec** (`Escaping`, `Markup`, `Fields`, `FileManager`, `RoundTrip`):
  - `saveCollection` is a loop that builds the document. It is proved equal
    to `Document`, the token rendering of the collection.
  - `escapeXml` is the five `replace` passes. It is proved equal to a
    one-pass, per-character escape whose output is clean: no raw `<`, `>`,
    `"` or `'`, and every `&` starts one of the five entities that section
    4.6 of XML 1.0 predefines.
  - `extractTag` and the `<vehicle>` scan are first-occurrence searches.
  - `parseVehicles`, `parseVehicle` and `parseCoordinates` are methods
    proved against the decoding functions.
  - `RoundTrip` proves what loading a saved document gives:
    - the saved vehicles in order, each with its name escaped and trimmed;
    - or the first vehicle a load check rejects.

Decimal and date literals are abstracted by the `Literals` record (`showReal`,
`parseReal`, `showDate`, `parseDate`). The codec relies on two properties of
a written literal: it reads back as the value written, and it has no `<` and
no surrounding space.
- `ValidLiterals` asks this of every date, and asks that `null` is not a
  number.
- For decimals it is asked only of the values actually saved
  (`RealRoundTrips`, and `SavedRealsOk` for one vehicle): a `real` stands
  for a `double`, and no text format reads back every real.
- `RoundTrip.SampleLiteralsValid` exhibits literals meeting these
  assumptions, and `RoundTrip.SampleRoundTrip` proves a document round trip
  under them, so the round-trip lemmas do not hold vacuously.

Integers are concrete: Java `int` is `Int32` and `Integer.toString` is
`IntToString`. `ParseInt` is `Integer.parseInt` restricted to ASCII digits
(see "## Left out"). Wrap-around at 2147483647 is written out in `Wrap32`.

Where the source and its documentation disagree, the model follows the
code:
- The class comment at `Lab_5/model/Vehicle.java:7` says the natural order
  is by id. `compareTo` compares names, so `sort` and `removeLower` are
  modelled by name.
- The design describes save-then-load as returning the same collection. The
  code does not do that for names holding `& < > " '` or surrounding
  spaces: names are escaped on save and never unescaped on load, and
  `extractTag` trims. See "## Findings".

## Model

| member | source | states |
|---|---|---|
| Collection.CollectionManager.constructor | Lab_5/collection/CollectionManager.java:21-26 | a new manager is empty and records the date it was created |
| Collection.CollectionManager.Add | Lab_5/collection/CollectionManager.java:65-70 | the vehicle gets id max+1 and today's date and is appended; the earlier elements are unchanged; when the id wraps to a non-positive value, `setId` throws and nothing changes; positive, distinct ids stay so |
| Collection.CollectionManager.UpdateById | Lab_5/collection/CollectionManager.java:75-85 | the first element with the id is replaced at its index by the new vehicle, which takes that id and the old creation date; no match: `false` and nothing changes; an id <= 0 that matches makes `setId` throw; positive, distinct ids stay so |
| Collection.CollectionManager.RemoveById | Lab_5/collection/CollectionManager.java:90-92 | exactly the elements with the id go and the rest keep their order; returns true iff one had the id |
| Collection.CollectionManager.Clear | Lab_5/collection/CollectionManager.java:97-99 | the store becomes empty |
| Collection.CollectionManager.RemoveLast | Lab_5/collection/CollectionManager.java:112-119 | a non-empty store loses exactly its last element; an empty one is untouched |
| Collection.CollectionManager.RemoveLower | Lab_5/collection/CollectionManager.java:124-128 | the survivors are the elements not below the reference by name, in order; none is below it; the count is old size minus new size |
| Collection.CollectionManager.Sort | Lab_5/collection/CollectionManager.java:133-136 | the result is non-decreasing by name and a permutation of the old store |
| Collection.CollectionManager.FilterLessThanType | Lab_5/collection/CollectionManager.java:159-163 | the elements whose type ordinal is below `t`'s, in store order (`Filter`); None (the NullPointerException) iff some element has no type |
| Collection.CollectionManager.ContainsId | Lab_5/collection/CollectionManager.java:168-170 | true iff some element has the id |
| Collection.CollectionManager.SumOfCapacity | Lab_5/collection/CollectionManager.java:141-145 | 0 for an empty store |
| Collection.CollectionManager.FilterByCapacity | Lab_5/collection/CollectionManager.java:150-154 | exactly the elements within 0.0001 of the capacity, in store order (`Filter`) |
| Collection.Filter | Lab_5/collection/CollectionManager.java:91 | keeps exactly the elements that pass the test, never more elements than the input |
| Collection.FilterAppend | Lab_5/collection/CollectionManager.java:91 | filtering a concatenation filters each part, so survivors keep their relative order |
| Collection.FilterShrinks | Lab_5/collection/CollectionManager.java:91 | something is removed iff some element fails the test; otherwise the sequence is unchanged |
| Collection.SortByName | Lab_5/collection/CollectionManager.java:134 | the result is sorted by name and has the same multiset of elements |
| Collection.InsertByName | Lab_5/collection/CollectionManager.java:134 | inserting into a sorted sequence keeps it sorted and adds exactly that element |
| Collection.SortedPairwise | Lab_5/collection/CollectionManager.java:134 | in a sorted store any earlier element is at most any later one by name |
| Collection.InsertKeepsNameOrder | Lab_5/collection/CollectionManager.java:134 | an insertion leaves the order of the vehicles of every name as it was |
| Collection.SortIsStable | Lab_5/collection/CollectionManager.java:134 | `Collections.sort` is stable: vehicles sharing a name keep their relative order |
| Collection.SumOfCapacitiesAppend | Lab_5/collection/CollectionManager.java:141-145 | the capacity sum is additive over concatenation |
| Collection.CapacityTolerance | Lab_5/collection/CollectionManager.java:152 | a capacity 0.00005 away matches and one 0.001 away does not |
| Ids.MaxId | Lab_5/utils/IdGenerator.java:17-20 | 0 for an empty collection, otherwise an id present that bounds all ids |
| Ids.GenerateId | Lab_5/utils/IdGenerator.java:16-21 | 1 on an empty collection, max id + 1 above every id, wrapping to -2147483648 at the int maximum |
| Ids.FindId | Lab_5/collection/CollectionManager.java:76-77 | the first index holding the id, or None when no element has it |
| Ids.IsIdUnique | Lab_5/utils/IdGenerator.java:43-45 | true iff no element has the id |
| Ids.GeneratedIdIsUnique | Lab_5/utils/IdGenerator.java:16-21 | below the int maximum the generated id is unique, and positive when ids are non-negative |
| Ids.IdGenerator.constructor | Lab_5/utils/IdGenerator.java:11 | the counter starts at 0 |
| Ids.IdGenerator.Next | Lab_5/utils/IdGenerator.java:26-28 | the counter is incremented (with 32-bit wrap) and the new value returned |
| Ids.IdGenerator.UpdateLastId | Lab_5/utils/IdGenerator.java:33-38 | the counter becomes the max id (0 if empty), so the next counter id equals `generateId(c)` |
| Vehicles.Vehicle.constructor | Lab_5/model/Vehicle.java:19-21 | every field at its Java default, creation date today |
| Vehicles.Vehicle.Full | Lab_5/model/Vehicle.java:27-37 | the fields as given, unchecked, creation date today |
| Vehicles.Vehicle.SetId | Lab_5/model/Vehicle.java:44-49 | succeeds iff id > 0; the id is the new one on success, the old one otherwise |
| Vehicles.Vehicle.SetName | Lab_5/model/Vehicle.java:55-60 | succeeds iff the name is present and not blank after trimming; stored untrimmed; unchanged on failure |
| Vehicles.Vehicle.SetCoordinates | Lab_5/model/Vehicle.java:66-71 | succeeds iff non-null; unchanged on failure |
| Vehicles.Vehicle.SetCreationDate | Lab_5/model/Vehicle.java:77-82 | succeeds iff non-null; unchanged on failure |
| Vehicles.Vehicle.SetEnginePower | Lab_5/model/Vehicle.java:88-96 | succeeds iff present and > 0; unchanged on failure |
| Vehicles.Vehicle.SetCapacity | Lab_5/model/Vehicle.java:102-107 | succeeds iff > 0; unchanged on failure |
| Vehicles.Vehicle.SetType | Lab_5/model/Vehicle.java:113-118 | succeeds iff non-null; unchanged on failure |
| Vehicles.Vehicle.SetFuelType | Lab_5/model/Vehicle.java:124-126 | any value, null included, is stored |
| Vehicles.CompareToByName | Lab_5/model/Vehicle.java:136-139 | the comparison is antisymmetric and 0 iff the names are equal |
| Vehicles.EqualsConsistentWithHashCode | Lab_5/model/Vehicle.java:142-152 | equality by id is an equivalence and equal vehicles have equal hash codes |
| Coords.Coordinates.constructor | Lab_5/model/Coordinates.java:9 | x absent, y 0 |
| Coords.Coordinates.SetX | Lab_5/model/Coordinates.java:20-28 | accepted iff present and <= 636 (636 and negatives included); unchanged on refusal |
| Coords.Coordinates.SetY | Lab_5/model/Coordinates.java:34-36 | any int is stored |
| Coords.Coordinates.Make | Lab_5/model/Coordinates.java:11-14 | the two-argument constructor throws (null) iff `setX` would refuse x; otherwise x and y as given |
| InputValidator.ValidateName | Lab_5/utils/InputValidator.java:17-21 | passes iff the name is present and has a non-space character |
| InputValidator.NameCheckAgrees | Lab_5/utils/InputValidator.java:18 | the name check refuses exactly what `setName`'s blank test refuses |
| InputValidator.ValidateEnginePower | Lab_5/utils/InputValidator.java:26-33 | passes iff present and > 0; absent is reported as missing |
| InputValidator.ValidateCapacity | Lab_5/utils/InputValidator.java:38-42 | passes iff > 0 |
| InputValidator.ValidateCoordinateX | Lab_5/utils/InputValidator.java:47-54 | passes iff `setX` accepts, 636 included; absent is reported as missing |
| InputValidator.ValidateId | Lab_5/utils/InputValidator.java:77-81 | passes iff id > 0, exactly the ids `setId` accepts |
| InputValidator.ValidateAndParseVehicleType | Lab_5/utils/InputValidator.java:59-72 | null or blank fails as blank; otherwise the constant named by the upper-cased trimmed input, or an error listing all names joined by ", " |
| InputValidator.UpperNameIsTrimmed | Lab_5/utils/InputValidator.java:65 | an input whose upper case is a constant's name is not blank and trims to that name |
| InputValidator.TypeMatchIgnoresCase | Lab_5/utils/InputValidator.java:59-65 | any spelling whose upper case is a constant's name selects that constant |
| VehicleTypes.Ordinal | Lab_5/model/VehicleType.java:3-7 | the position of the constant in declaration order |
| VehicleTypes.ValueOf | Lab_5/model/VehicleType.java:3-7 | the constant with exactly that name, or None when no name matches |
| VehicleTypes.ValueOfName | Lab_5/file/FileManager.java:158 | each constant's name maps back to it |
| VehicleTypes.NameIsTrimmed | Lab_5/model/VehicleType.java:3-7 | names are their own trim |
| VehicleTypes.DeclarationOrder | Lab_5/model/VehicleType.java:3-7 | four constants, CAR < SUBMARINE < BICYCLE < HOVERBOARD |
| VehicleTypes.NamesJoined | Lab_5/model/VehicleType.java:9-15 | the names joined by ", " are "CAR, SUBMARINE, BICYCLE, HOVERBOARD" |
| VehicleTypes.GetTypes | Lab_5/model/VehicleType.java:9-15 | the loop's text with the last two characters cut is exactly that join, no trailing separator |
| FuelTypes.Ordinal | Lab_5/model/FuelType.java:3-7 | the position of the constant in declaration order |
| FuelTypes.ValueOf | Lab_5/model/FuelType.java:3-7 | the constant with exactly that name, or None |
| FuelTypes.ValueOfName | Lab_5/file/FileManager.java:166-168 | each name maps back to its constant and no constant is named "null" |
| FuelTypes.DeclarationOrder | Lab_5/model/FuelType.java:3-7 | four constants, GASOLINE < KEROSENE < ALCOHOL < MANPOWER |
| FuelTypes.NamesJoined | Lab_5/model/FuelType.java:9-15 | the names joined by ", " are "GASOLINE, KEROSENE, ALCOHOL, MANPOWER" |
| FuelTypes.GetTypes | Lab_5/model/FuelType.java:9-15 | the loop's text with the last two characters cut is exactly that join |
| Text.Trim | Lab_5/file/FileManager.java:212 | no longer than the input, with no space at either end |
| Text.BlankIffAllSpace | Lab_5/model/Vehicle.java:56 | `trim().isEmpty()` holds iff every character is a space |
| Text.TrimPadded | Lab_5/file/FileManager.java:212 | trimming removes exactly the spaces padding a text with non-space ends |
| Text.CompareToZeroIffEqual | Lab_5/model/Vehicle.java:138 | `String.compareTo` is 0 iff the strings are equal |
| Text.CompareToTransitive | Lab_5/model/Vehicle.java:138 | the comparison is transitive |
| Text.CompareToTotal | Lab_5/model/Vehicle.java:138 | any two strings are ordered one way or the other |
| Text.IndexFromSpec | Lab_5/file/FileManager.java:211-212 | the search returns the first position at or after `from` where the pattern starts, or None when there is none |
| Text.ToUpper | Lab_5/utils/InputValidator.java:65 | same length, each character upper-cased |
| Text.ListingIsJoinPlusSeparator | Lab_5/model/VehicleType.java:11-14 | appending ", " after each name gives the join plus one trailing ", ", which the cut removes |
| Numbers.Wrap32 | Lab_5/utils/IdGenerator.java:20 | 32-bit values are kept and max + 1 wraps to the minimum |
| Numbers.NatToString | Lab_5/file/FileManager.java:34 | a non-empty digit string with no leading zero whose value is the number |
| Numbers.ParseIntRoundTrip | Lab_5/file/FileManager.java:102 | `Integer.parseInt` reads back every `int` that was written |
| Escaping.EscapeIsOnePass | Lab_5/file/FileManager.java:218-224 | the five passes, `&` first, escape each character exactly once |
| Escaping.EscapedIsClean | Lab_5/file/FileManager.java:218-224 | the output has no raw `<`, `>`, `"`, `'`, and every `&` starts one of the five entities |
| Escaping.EscapeAppend | Lab_5/file/FileManager.java:218-224 | escaping distributes over concatenation |
| Escaping.EscapeOfPlain | Lab_5/file/FileManager.java:218-224 | text with none of the five characters is unchanged |
| Escaping.EscapeKeepsBlank | Lab_5/file/FileManager.java:218-224 | escaped text is blank iff the text is |
| Escaping.EscapeEnds | Lab_5/file/FileManager.java:218-224 | escaping adds no space at either end |
| Escaping.UnescapeEscape | Lab_5/file/FileManager.java:218-224 | the corrected decoding undoes the escape: unescape(escapeXml(s)) == s |
| Markup.ExtractTag | Lab_5/file/FileManager.java:209-213 | a found text is trimmed and no longer than the document |
| Markup.ExtractTagSpec | Lab_5/file/FileManager.java:209-213 | null iff no `<t>` is followed by a `</t>`; otherwise the trimmed text between the first `<t>` and the first `</t>` after it |
| Markup.BetweenSpec | Lab_5/file/FileManager.java:210-212 | the non-greedy match: the first opening at or after `from`, then the first closing after it |
| Markup.FindElementSpec | Lab_5/file/FileManager.java:78-81 | the `<vehicle>` scan finds the first non-greedy element at or after `from` |
| Markup.ExtractOfTokens | Lab_5/file/FileManager.java:209-213 | in a rendered document, the tag's text is the trimmed rendering between its first open tag and the first close tag after it |
| Markup.ExtractAbsent | Lab_5/file/FileManager.java:209-213 | a tag that is not in the document gives null |
| Markup.FindNoElement | Lab_5/file/FileManager.java:81 | with no `<vehicle>` left the scan stops, and `<vehicles>` is not taken for `<vehicle>` |
| Fields.ExtractField | Lab_5/file/FileManager.java:34-44 | each one-line field of a saved block is found by its tag with its text trimmed |
| Fields.FieldRender | Lab_5/file/FileManager.java:34 | a field renders as its indented `<tag>text</tag>` line |
| FileManager.SaveCollection | Lab_5/file/FileManager.java:27-48 | the built text is the document: declaration, `<vehicles>`, one block per vehicle in order, `</vehicles>` with no newline |
| FileManager.BlockRendered | Lab_5/file/FileManager.java:33-45 | one vehicle's block is the eleven lines of the layout, absent values written as `null` |
| FileManager.HeaderRendered | Lab_5/file/FileManager.java:29-30 | the document opens with the XML declaration and `<vehicles>` |
| FileManager.BlocksAppend | Lab_5/file/FileManager.java:32-46 | the blocks of a concatenation are the concatenated blocks |
| FileManager.SaveStep | Lab_5/file/FileManager.java:32-46 | each loop round appends exactly the next vehicle's block |
| FileManager.SaveEnd | Lab_5/file/FileManager.java:48 | the closing `</vehicles>` completes the document |
| FileManager.ParseVehicles | Lab_5/file/FileManager.java:77-90 | the loop's result is `DecodeVehicles`: one vehicle per `<vehicle>` element in order, or the first block's error with no partial result |
| FileManager.DecodeVehicles | Lab_5/file/FileManager.java:77-90 | every vehicle of a successful load satisfies the load invariants |
| FileManager.Cons | Lab_5/file/FileManager.java:83-88 | a load succeeds iff the block and the rest do, and otherwise reports the block's error first |
| FileManager.VehiclesStep | Lab_5/file/FileManager.java:81-88 | a failing block aborts the whole load; a good one is pushed and the scan goes on |
| FileManager.ParseBlock | Lab_5/file/FileManager.java:84 | one block's outcome is `DecodeVehicle` of its text |
| FileManager.ParseVehicle | Lab_5/file/FileManager.java:95-175 | fails exactly when `DecodeVehicle` does, with its error; otherwise a fresh complete vehicle whose value is the decoded one |
| FileManager.ParseTags | Lab_5/file/FileManager.java:95-175 | the setter-by-setter construction yields the decoded vehicle or the first check's error |
| FileManager.DecodeVehicle | Lab_5/file/FileManager.java:95-175 | a loaded vehicle satisfies the load invariants (positive or absent id, non-blank name, x <= 636, positive power, non-negative capacity) |
| FileManager.TagsOf | Lab_5/file/FileManager.java:99-165 | every field is read by `extractTag` of its own tag, and the coordinates from their sub-document |
| FileManager.LoadId | Lab_5/file/FileManager.java:99-108 | an absent id leaves 0; a non-integer or <= 0 id is an error; otherwise it is set |
| FileManager.LoadName | Lab_5/file/FileManager.java:111-115 | a missing or blank name is an error; otherwise it is set |
| FileManager.LoadCoordinates | Lab_5/file/FileManager.java:118-122 | missing coordinates are an error; otherwise the parsed coordinates are set |
| FileManager.LoadDate | Lab_5/file/FileManager.java:125-128 | an absent date keeps today's; an unparsable one is an error |
| FileManager.LoadEnginePower | Lab_5/file/FileManager.java:131-140 | absent keeps null; non-numeric or <= 0 is an error |
| FileManager.LoadCapacity | Lab_5/file/FileManager.java:143-152 | absent keeps 0; non-numeric or <= 0 is an error |
| FileManager.LoadType | Lab_5/file/FileManager.java:155-162 | absent keeps null; an unknown literal is an error |
| FileManager.LoadFuelType | Lab_5/file/FileManager.java:165-172 | absent, `null` or an unknown literal gives no fuel type, never an error |
| FileManager.DecodeFuelType | Lab_5/file/FileManager.java:165-172 | a fuel type is read iff the text is a constant's exact name |
| FileManager.ParseCoordinates | Lab_5/file/FileManager.java:180-204 | fresh coordinates equal to `DecodeCoordinates` of the sub-document, or its error |
| FileManager.ParseCoordTags | Lab_5/file/FileManager.java:183-201 | absent x or y stay unset; a non-numeric x or y, or x > 636, is an error |
| FileManager.DecodeX | Lab_5/file/FileManager.java:183-192 | a decoded x is absent or at most 636 |
| FileManager.DecodeCoordinatesTag | Lab_5/file/FileManager.java:118-121 | missing coordinates are an error; decoded x respects the bound |
| RoundTrip.DecodeSaved | Lab_5/file/FileManager.java:95-175 | when the vehicle's decimals read back, decoding the tags of a saved vehicle gives the vehicle with its name escaped and trimmed, or the first check that rejects a stored value |
| RoundTrip.DecodeSavedId | Lab_5/file/FileManager.java:99-108 | a saved id reads back, and is refused iff <= 0 |
| RoundTrip.DecodeSavedName | Lab_5/file/FileManager.java:111-115 | a saved name reads back escaped and trimmed, and is refused iff blank |
| RoundTrip.DecodeSavedCoordinates | Lab_5/file/FileManager.java:180-204 | saved coordinates read back when a present x reads back; an absent x (written `null`) or x > 636 is refused |
| RoundTrip.BlockTags | Lab_5/file/FileManager.java:99-165 | `extractTag` finds, in a saved block, exactly the text written for each field |
| RoundTrip.ReloadBlock | Lab_5/file/FileManager.java:95-175 | reading a saved block gives `Reload` of the vehicle |
| RoundTrip.ReloadDocument | Lab_5/file/FileManager.java:77-90 | when every saved decimal reads back, loading a saved document gives every saved vehicle's reload in order, or the first failure |
| RoundTrip.SampleRoundTrip | Lab_5/file/FileManager.java:77-90 | under literals whose assumptions are proved, a saved one-vehicle document loads back as exactly that vehicle |
| RoundTrip.ReloadAllOk | Lab_5/file/FileManager.java:81-88 | the load succeeds iff no vehicle fails a check |
| RoundTrip.ReloadAllValues | Lab_5/file/FileManager.java:81-88 | a successful load has one vehicle per saved one, each the saved one with its name escaped and trimmed |
| RoundTrip.ReloadAllErr | Lab_5/file/FileManager.java:81-88 | a failed load reports the error of the first vehicle that fails a check |
| RoundTrip.ReloadPlainName | Lab_5/file/FileManager.java:111-115 | a name without the five characters and without surrounding space comes back unchanged |
| RoundTrip.PlainVehicleRoundTrip | Lab_5/file/FileManager.java:95-175 | a vehicle passing every check with such a name loads back exactly as saved |
| RoundTrip.EscapedNameStaysEscaped | Lab_5/file/FileManager.java:35 | a name `R&D` comes back as `R&amp;D` |
| RoundTrip.AmpersandNameChanges | Lab_5/file/FileManager.java:111-115 | a valid vehicle named `R&D` loads back named `R&amp;D`, not as saved |
| RoundTrip.UnescapedRoundTrip | Lab_5/file/FileManager.java:111-115 | with the name unescaped on load, every valid vehicle whose name has no surrounding space loads back exactly as saved |

## Left out

- File I/O: the `FileOutputStream` write and the `FileReader` loop are not modelled. The codec works on strings.
- `CollectionManager.loadCollection` and `save`: these are the file calls plus printing and the empty-collection fallback. Their string parts are `ParseVehicles`, `IdGenerator.UpdateLastId` and `SaveCollection`.
- `getInfo`, `showAll` and `toString`: console output and reflection.
- The command layer, `Main` and the exception class are not modelled. Exceptions are the `ParseError`, `Invalid` and `UpdateOutcome` cases.
- The clock: `LocalDate.now()` is the `today` parameter.
- Dates are not modelled in detail. `LocalDate.parse` and `toString` are the `Literals` functions, and only their round trip is assumed (`ValidLiterals`).
- Floating point: `Double` is Dafny `real`. There is no NaN and no rounding, so `getSumOfCapacity` is an exact sum. `Double.toString`/`parseDouble` are `Literals` functions, and their round trip is assumed only for the decimals a saved vehicle holds (`SavedRealsOk`), as it holds for doubles.
- The regex engine: `extractTag` and the `<vehicle>` scan are modelled as the first-occurrence search that `(.*?)` with DOTALL performs.
- Aliasing: the store keeps `VehicleData` snapshots, so a later change to a `Vehicle` object the caller still holds is not reflected in the store.
- Text.ToUpper: maps ASCII letters only, not the full Unicode `toUpperCase`.
- Text.CompareTo: names are compared by Unicode scalar value, not by UTF-16 code unit as `String.compareTo` does. The two orders differ only for names that mix characters from U+E000 to U+FFFF with characters above U+FFFF, so for such names `Sort` and `RemoveLower` may order or keep vehicles differently from the source.
- Numbers.ParseInt: accepts ASCII digits only. `Integer.parseInt` also accepts the other Unicode decimal digits (such as Arabic-Indic or fullwidth digits), so an `<id>` or `<y>` written with them loads in the source but is refused in the model.
- Collection.CollectionManager.SumOfCapacity: states only the empty case; additivity is `SumOfCapacitiesAppend`, and the rest is exact real arithmetic, not IEEE summation.
- Markup.ExtractTag: states only that the result is trimmed and bounded. The full characterisation is `ExtractTagSpec`.
- FileManager.DecodeX: states only the re-applied x <= 636 bound. Which texts it refuses is stated on saved texts by `RoundTrip.DecodeSavedCoordinates`.
- FileManager.DecodeVehicle: states only the load invariants. Its outcome on saved blocks is `RoundTrip.ReloadBlock`.
- FileManager.DecodeVehicles: states only the load invariants. Its outcome on saved documents is `RoundTrip.ReloadDocument`.
- FileManager.DecodeCoordinatesTag: states the missing-coordinates error and the x bound only.

## Findings

| source | as written | input that shows it | evidently intended | confidence | as-written member | corrected member |
|---|---|---|---|---|---|---|
| Lab_5/file/FileManager.java:111-115 | the name is escaped when saved (line 35) and read back without unescaping, so every save/load cycle escapes it once more | a valid vehicle named `R&D` is saved as `R&amp;D` and loads back named `R&amp;D` | loading a saved file gives back the saved names | medium, not executed | RoundTrip.AmpersandNameChanges | RoundTrip.UnescapedRoundTrip |

The corrected reading unescapes the loaded name with `Escaping.UnescapeXml`.
`Escaping.UnescapeEscape` proves that this undoes `escapeXml` for every
string. The loader model itself, `DecodeVehicle` and `ParseVehicle`, stays as
written.
