# jismesh core in Dafny

This project models the core of `jismesh`. That library converts between geographic coordinates and the
regional mesh codes of the Japanese standard JIS X 0410. The core has five parts:

- **Levels.** There are fourteen mesh levels: the standard levels 1 to 6 and the multiplier
  levels 40000, 20000, 16000, 8000, 5000, 4000, 2500 and 2000. Each has a discriminant, an order,
  a name, and a cell size in degrees of latitude and longitude.
- **Digit slicing and level inference.** Given a batch of codes, the library reads the
  decimal digits of each code and infers its level from the digit count and the last digit.
- **Encoding.** A batch of latitudes and longitudes is validated and then encoded to codes of
  one level. A shorter input is broadcast by repeating it.
- **Decoding.** A batch of codes is turned into points. Each point is the south-west corner of
  the code's cell plus a multiplier times the cell size. The result has two rows.
- **Envelopes.** The codes covering the rectangle between two codes: every cell of the block
  between them, once each, in row-major order. And the codes of another level whose cells meet
  a given cell: every code returned names a cell that shares a point with it.

Floating-point arithmetic is modelled with exact `real`s:

- `as u64` on a float becomes `RealOps.AsU64`, the floor for non-negative values and 0 otherwise.
- The float remainder `%` becomes `RealOps.FRem`, which truncates.
- The `as u8` cast on sliced digits is written out as a remainder modulo 256.

Each module follows one source file:

| module | source |
|---|---|
| `Errors`, `LevelConversion` | src/utils/error.rs and the conversions in src/utils/levels.rs |
| `Levels` | src/utils/levels.rs |
| `Units`, `Digits` | src/utils/mod.rs |
| `RealOps` | float-to-integer casts and float remainder used throughout |
| `MeshLevelInference` | src/utils/meshlevel.rs |
| `MeshCodes` | src/utils/meshcode.rs |
| `MeshPoints` | src/utils/meshpoint.rs |
| `RoundTrip` | encoder and decoder together |
| `Envelopes` | src/utils/envelope.rs |
| `MeshPointExamples`, `EnvelopeExamples` | the unit tests of meshpoint.rs and envelope.rs |

Where the source works by changing state step by step, the model is imperative, and each method is
proved equal to a specification function:

| method | specification function | what the method does |
|---|---|---|
| `MeshLevelInference.ToMeshLevel` | `InferBatch` | loops over the batch with an early return |
| `MeshCodes.ToMeshcode` | `EncodeBatch` | runs the validation loops, then fills the result index by index |
| `MeshPoints.ToMeshpoint` | `DecodeBatch` | updates latitude and longitude arrays in place through the `Apply…` methods, then copies them into a 2×N `array2` |
| `Envelopes.MakeEnvelope` | `Envelope` | runs nested loops that push the grid points |

## Model

| member | source | states |
|---|---|---|
| LevelConversion.TryFrom | src/utils/levels.rs:89-107 | a successful conversion returns the level whose discriminant is the value; a failure is `InvalidMeshLevel(value)` |
| LevelConversion.TryFromDiscriminant | src/utils/levels.rs:140-147 | converting any level's discriminant gives back that level; a value that is no discriminant, such as 9999, fails with `InvalidMeshLevel` |
| LevelConversion.FromStr | src/utils/levels.rs:6 | parsing succeeds only with the level whose name is the text; otherwise it is the payload-free `ParseError`, as strum's `VariantNotFound` carries no text |
| LevelConversion.NameRoundTrip | src/utils/levels.rs:158-170 | parsing a level's displayed name gives back the level; any other text, such as "Invalid", fails |
| Levels.Discriminant | src/utils/levels.rs:7-36 | every discriminant is positive (1, 40000, 20000, 16000, 2, 8000, 5000, 4000, 2500, 2000, 3, 4, 5, 6) |
| Levels.DiscriminantInjective | src/utils/levels.rs:7-36 | two levels have the same discriminant exactly when they are the same level |
| Levels.LessIsStrictTotalOrder | src/utils/levels.rs:6 | the derived order, which compares discriminants, is irreflexive, transitive, total and asymmetric |
| Levels.OrderOfLevels | src/utils/levels.rs:116-137 | Lv1 < Lv2 < … < Lv6; a level is a multiplier level exactly when it sorts above Lv6 |
| Levels.AllLevelsEnumeration | src/utils/levels.rs:150-155 | the enumeration has 14 distinct levels, Lv1 first and Lv6 last, and contains every level |
| Levels.Name | src/utils/levels.rs:80-84 | the displayed name of a level is at least two characters long |
| Levels.NameInjective | src/utils/levels.rs:80-84 | two levels display the same name exactly when they are the same level |
| Units.UnitLatLon | src/utils/mod.rs:45-62 | every cell size is positive and no larger than a first-level cell (2/3° by 1°) |
| Units.UnitLat | src/utils/mod.rs:64-66 | the latitude size of a cell is positive |
| Units.UnitLon | src/utils/mod.rs:68-70 | the longitude size of a cell is positive |
| Units.UnitsSubdivide | src/utils/mod.rs:16-43 | each level's cell is its parent cell divided by 2, 5, 8 or 10, as the constants are derived |
| Units.LonIsThreeHalvesLat | src/utils/mod.rs:16-43 | at every level the longitude size is 3/2 of the latitude size |
| Units.BasicChainShrinks | src/utils/mod.rs:16-43 | cell sizes strictly decrease from level 1 to level 6 |
| RealOps.Trunc | src/utils/meshcode.rs:65-66 | truncation toward zero: the result is within one of the value, on the side of zero |
| RealOps.AsU64 | src/utils/meshcode.rs:58-59 | the cast of a float to u64 is the floor of a non-negative value and 0 below 1 |
| RealOps.DivAsU64 | src/utils/meshcode.rs:58-59 | the cast quotient n satisfies n·u ≤ x < n·u + u for x ≥ 0, and is 0 for negative x |
| RealOps.FRem | src/utils/meshcode.rs:57-66 | the float remainder lies strictly between -u and u; for x ≥ 0 it is non-negative and x = n·u + r with n the cast quotient |
| RealOps.CountBelow | src/utils/meshcode.rs:58 | a value below k·u has cast quotient below k |
| RealOps.RemainderFacts | src/utils/meshcode.rs:65-66 | `x - trunc(x/u)·u` lies strictly between -u and u, takes the sign of x, and for x ≥ 0 uses the same quotient as the cast |
| Digits.Pow10 | src/utils/mod.rs:78-79 | every power of ten is at least 1 |
| Digits.NumDigits | src/utils/mod.rs:74 | the digit count is at least 1, also for 0 |
| Digits.NumDigitsIs | src/utils/mod.rs:74 | a number between 10^(n-1) and 10^n has exactly n digits |
| Digits.NumDigitsBounds | src/utils/mod.rs:74 | every number lies below 10^digits and, when positive, at or above 10^(digits-1) |
| Digits.Slice | src/utils/mod.rs:72-83 | a slice fits in a byte, and it is 0 when the code has fewer digits than the slice's end |
| Digits.SliceBatch | src/utils/mod.rs:72-73 | slicing a batch keeps its length and slices each element on its own |
| Digits.SliceDigitBound | src/utils/mod.rs:93-95 | a one-digit slice is at most 9 |
| Digits.LeadingPairBound | src/utils/mod.rs:98 | the first two digits of a code with at least two digits lie between 10 and 99 |
| Digits.SliceExamples | src/utils/mod.rs:93-100 | 12345 slices to 1, 2, 5, 12, 234, 45 and, past its digits, to 0 |
| Digits.SliceBatchExamples | src/utils/mod.rs:103-104 | slicing [123, 456, 7890] gives [1, 4, 7] and [23, 56, 89] |
| Digits.ThreeDigitExample | src/utils/mod.rs:103-104 | a three-digit code slices into its hundreds digit and its last two digits |
| Digits.SliceSmallExamples | src/utils/mod.rs:107-111 | slicing 0 gives 0, slicing the one-digit 5 gives 5, and an empty slice gives 0 |
| Digits.FourDigitExample | src/utils/mod.rs:103-104 | a four-digit code such as 7890 slices into its thousands digit and its middle two digits |
| Digits.Digits | src/utils/mod.rs:78-80 | the value of a big-endian sequence of decimal digits, the number the slices take apart (bounded by `DigitsBound`, split by `DigitsAppend`) |
| Digits.Code | src/utils/meshpoint.rs:130-138 | a code laid out as row `ab`, column `cd` and trailing digits, the layout the decoder slices (read back by `CodeLayout`) |
| Digits.DigitsBound | src/utils/mod.rs:72-83 | a code built from n decimal digits is below 10^n |
| Digits.DigitsAppend | src/utils/mod.rs:72-83 | appending digit sequences shifts the first by the length of the second |
| Digits.DigitAt | src/utils/mod.rs:78-80 | masking and dividing a composed code returns the digit at the requested position |
| Digits.CodeDigitCount | src/utils/mod.rs:74 | a code built from a two-digit row, a column and n digits has 4 + n digits |
| Digits.CodeRow | src/utils/meshpoint.rs:130 | slice 0..2 of a composed code is its row |
| Digits.CodeColumn | src/utils/meshpoint.rs:131 | slice 2..4 of a composed code is its column |
| Digits.CodeDigit | src/utils/meshpoint.rs:132-138 | slice 4+i..5+i of a composed code is its i-th trailing digit |
| Digits.CodeLayout | src/utils/meshpoint.rs:130-138 | the digit count, row, column and every trailing digit of a composed code are read back by slicing |
| MeshLevelInference.LevelOf | src/utils/meshlevel.rs:13-54 | a code with a level has 4 to 11 digits; a failure is `InvalidMeshcodeAtLevel` for 7, 9, 10 or 11 digits and `UnknownMeshLevelForCode` otherwise, and it carries the code |
| MeshLevelInference.DigitCount | src/utils/meshlevel.rs:27-52 | every level is written with 4 to 11 digits |
| MeshLevelInference.SliceLast | src/utils/meshlevel.rs:16-19 | the slice of the last digit position is the code modulo 10 |
| MeshLevelInference.LevelOfRules | src/utils/meshlevel.rs:22-54 | the full decision table: 4, 5, 6, 8 digits give Lv1, X40, Lv2, Lv3; the last digit of 7, 9, 10, 11-digit codes selects X5/X20/X8/X16, Lv4/X2/X2_5/X4, Lv5, Lv6, with each failure |
| MeshLevelInference.LevelOfDigitCount | src/utils/meshlevel.rs:22-54 | a code inferred at a level has exactly that level's digit count |
| MeshLevelInference.InferEach | src/utils/meshlevel.rs:22-58 | the loop succeeds exactly when every code has a level; the result is elementwise and of the same length; a failure is the first failing code's error |
| MeshLevelInference.InferBatch | src/utils/meshlevel.rs:6-58 | a zero anywhere gives `UnknownMeshLevelForCode(0)`; otherwise success exactly when every code has a level, with elementwise levels, or else the first failure in index order |
| MeshLevelInference.FirstFailure | src/utils/meshlevel.rs:25-54 | e is the error of the first code in index order whose inference fails, every earlier code having a level: the early return of the loop |
| MeshLevelInference.FirstFailureUnique | src/utils/meshlevel.rs:22-58 | the first failure in index order is one error, not a choice among several |
| MeshLevelInference.ToMeshLevel | src/utils/meshlevel.rs:6-58 | the zero scan and the inference loop with early return compute `InferBatch` |
| MeshLevelInference.FailureAt | src/utils/meshlevel.rs:22-58 | a batch without zeros whose first failing code is at index idx fails with that code's error |
| MeshLevelInference.ZeroFailsFirst | src/utils/meshlevel.rs:8-10 | a zero fails the batch even after another bad code; a lone 5 fails with `UnknownMeshLevelForCode(5)` |
| MeshLevelInference.TokyoLevels | src/utils/meshlevel.rs:69-83 | the fourteen Tokyo test codes infer to their levels |
| MeshLevelInference.KyotoLevels | src/utils/meshlevel.rs:84-98 | the fourteen Kyoto test codes infer to their levels |
| MeshCodes.ValidLat | src/utils/meshcode.rs:14 | the accepted latitudes are the half-open range [0, 66.66) |
| MeshCodes.ValidLon | src/utils/meshcode.rs:20 | the accepted longitudes are the half-open range [100, 180) |
| MeshCodes.EncodeDefined | src/utils/meshcode.rs:13-30 | encoding is defined when some coordinate is out of bounds (the bounds error comes first) or the two inputs are both empty or both non-empty |
| MeshCodes.RemLatLv1 | src/utils/meshcode.rs:65 | the latitude within its first-level cell, as the float remainder `lat % UNIT_LAT_LV1` |
| MeshCodes.RemLonLv1 | src/utils/meshcode.rs:66 | the longitude within its first-level cell, `lon % 100.0 % UNIT_LON_LV1` |
| MeshCodes.RemLat40000 | src/utils/meshcode.rs:75 | the latitude within its 40000 cell, the remainder of the first-level remainder |
| MeshCodes.RemLon40000 | src/utils/meshcode.rs:76 | the longitude within its 40000 cell |
| MeshCodes.RemLat8000 | src/utils/meshcode.rs:124 | the latitude within its 8000 cell |
| MeshCodes.RemLon8000 | src/utils/meshcode.rs:125 | the longitude within its 8000 cell |
| MeshCodes.RemLatLv2 | src/utils/meshcode.rs:114 | the latitude within its second-level cell, `lat % UNIT_LAT_LV1 % UNIT_LAT_LV2` |
| MeshCodes.RemLonLv2 | src/utils/meshcode.rs:115 | the longitude within its second-level cell |
| MeshCodes.RemLat5000 | src/utils/meshcode.rs:135 | the latitude within its 5000 cell |
| MeshCodes.RemLon5000 | src/utils/meshcode.rs:136 | the longitude within its 5000 cell |
| MeshCodes.RemLatLv3 | src/utils/meshcode.rs:163 | the latitude within its third-level cell |
| MeshCodes.RemLonLv3 | src/utils/meshcode.rs:164 | the longitude within its third-level cell |
| MeshCodes.RemLatLv4 | src/utils/meshcode.rs:171 | the latitude within its fourth-level cell |
| MeshCodes.RemLonLv4 | src/utils/meshcode.rs:172 | the longitude within its fourth-level cell |
| MeshCodes.RemLatLv5 | src/utils/meshcode.rs:179-180 | the latitude within its fifth-level cell |
| MeshCodes.RemLonLv5 | src/utils/meshcode.rs:181-182 | the longitude within its fifth-level cell |
| MeshCodes.Quadrant | src/utils/meshcode.rs:65-67 | a quadrant number computed from remainders smaller than a cell lies in 1..4 |
| MeshCodes.MeshcodeLv1 | src/utils/meshcode.rs:55-61 | for valid coordinates, the row part is at most 99 and the column part at most 79 |
| MeshCodes.Meshcode40000 | src/utils/meshcode.rs:63-69 | the code is the first-level code followed by a quadrant digit 1..4 |
| MeshCodes.Meshcode20000 | src/utils/meshcode.rs:71-81 | the code is the 40000 code followed by a quadrant digit 1..4 and the marker 5 |
| MeshCodes.Meshcode16000 | src/utils/meshcode.rs:83-91 | the code is the first-level code followed by two even digits and the marker 7 |
| MeshCodes.MeshcodeLv2 | src/utils/meshcode.rs:93-100 | the code is the first-level code followed by two digits 0..7 |
| MeshCodes.Meshcode8000 | src/utils/meshcode.rs:102-110 | the code is the first-level code followed by the tenth-band indices of latitude and longitude within the first-level cell, each a single digit 0..9, and the marker 6 |
| MeshCodes.Meshcode5000 | src/utils/meshcode.rs:112-118 | the code is the second-level code followed by a quadrant digit 1..4 |
| MeshCodes.Meshcode4000 | src/utils/meshcode.rs:120-129 | the code is the 8000 code followed by a quadrant digit 1..4 and the marker 7 |
| MeshCodes.Meshcode2500 | src/utils/meshcode.rs:131-140 | the code is the 5000 code followed by a quadrant digit 1..4 and the marker 6 |
| MeshCodes.Meshcode2000 | src/utils/meshcode.rs:142-150 | the code is the second-level code followed by two even digits and the marker 5 |
| MeshCodes.MeshcodeLv3 | src/utils/meshcode.rs:152-159 | the code is the second-level code followed by the tenth-band indices of latitude and longitude within the second-level cell, each a single digit 0..9 |
| MeshCodes.MeshcodeLv4 | src/utils/meshcode.rs:161-167 | the code is the third-level code followed by a quadrant digit 1..4 |
| MeshCodes.MeshcodeLv5 | src/utils/meshcode.rs:169-175 | the code is the fourth-level code followed by a quadrant digit 1..4 |
| MeshCodes.MeshcodeLv6 | src/utils/meshcode.rs:177-185 | the code is the fifth-level code followed by a quadrant digit 1..4 |
| MeshCodes.Meshcode | src/utils/meshcode.rs:32-48 | the per-level encoder the level match selects, one arm per level (its digits are given by the `Meshcode…` rows above, its inverse by `RoundTrip.EncodeThenDecode`) |
| MeshCodes.FirstInvalidLat | src/utils/meshcode.rs:13-17 | the index returned is that of the first latitude outside [0, 66.66), or the length when there is none |
| MeshCodes.FirstInvalidLon | src/utils/meshcode.rs:19-23 | the index returned is that of the first longitude outside [100, 180), or the length when there is none |
| MeshCodes.EncodeBatch | src/utils/meshcode.rs:11-52 | encoding fails exactly when some coordinate is out of bounds; a latitude error names the first bad latitude, and longitudes are checked only when all latitudes are valid; success has length max(\|lat\|, \|lon\|), and element i encodes lat[i mod \|lat\|], lon[i mod \|lon\|] |
| MeshCodes.ToMeshcode | src/utils/meshcode.rs:11-52 | the validation loops and the broadcast fill compute `EncodeBatch` |
| MeshCodes.Broadcast | src/utils/meshcode.rs:26-30 | the broadcast has the length of the longer input, and element i pairs lat[i mod \|lat\|] with lon[i mod \|lon\|] |
| MeshCodes.FillCodes | src/utils/meshcode.rs:26-49 | the fill loop computes exactly the broadcast encoding |
| MeshCodes.FirstInvalidLatIs | src/utils/meshcode.rs:13-17 | an index t with all earlier latitudes valid and latitude t invalid (or t the length) is the first invalid index |
| MeshCodes.FirstInvalidLonIs | src/utils/meshcode.rs:19-23 | the same for longitudes |
| MeshCodes.TokyoRemainders | src/utils/meshcode.rs:217-241 | the exact remainders of the Tokyo test point at every level |
| MeshCodes.TokyoMeshcodes | src/utils/meshcode.rs:217-241 | the Tokyo test point encodes to the fourteen expected codes |
| MeshCodes.KyotoRemainders | src/utils/meshcode.rs:243-267 | the exact remainders of the Kyoto test point at every level |
| MeshCodes.KyotoMeshcodes | src/utils/meshcode.rs:243-267 | the Kyoto test point encodes to the fourteen expected codes |
| MeshCodes.BoundsRejected | src/utils/meshcode.rs:193-215 | -0.1 and 66.66 latitudes and 99.99 and 180.0 longitudes are rejected with the offending value; latitudes are checked before longitudes; an empty batch encodes to an empty batch |
| MeshCodes.BroadcastPairs | src/utils/meshcode.rs:26-30 | a single longitude is repeated for every latitude |
| MeshPoints.QuadLat | src/utils/meshpoint.rs:19-21 | a quadrant digit adds one cell height north exactly when digit / 3 is 1, that is for 3 and 4 |
| MeshPoints.QuadLon | src/utils/meshpoint.rs:22-24 | a quadrant digit adds one cell width east exactly when it is even, that is for 2 and 4 |
| MeshPoints.Offset | src/utils/meshpoint.rs:149-278 | the level match: for each level, the sum of the cell sizes that the decoder's arm adds for digits e..k to the first-level corner |
| MeshPoints.Corner | src/utils/meshpoint.rs:13-14 | the first-level corner ab·2/3, cd·1 + 100 plus the level's offset |
| MeshPoints.SouthWest | src/utils/meshpoint.rs:130-138 | the corner of a code at a level, computed from its slices 0..2, 2..4 and the single digits 4..11 |
| MeshPoints.Scale | src/utils/meshpoint.rs:113-114 | the level's cell height and width times the two multipliers |
| MeshPoints.MeshPoint | src/utils/meshpoint.rs:145-289 | the point the loop body computes: the corner plus the cell size times the multipliers |
| MeshPoints.DecodeDefined | src/utils/meshpoint.rs:113-114 | decoding is defined when inference fails, the batch is empty, or both multiplier arrays are non-empty |
| MeshPoints.ScaleIsUnitTimesMultiplier | src/utils/meshpoint.rs:113-114 | the multiplier adjustment is the cell size times the multiplier on each axis |
| MeshPoints.Clamp | src/utils/meshpoint.rs:113-114 | `min(idx, len-1)` is idx when idx is in range and the last index otherwise |
| MeshPoints.Points | src/utils/meshpoint.rs:145-289 | decoding yields one point per code |
| MeshPoints.DecodeBatch | src/utils/meshpoint.rs:118-299 | decoding fails exactly when level inference fails, with the same error; otherwise there is one point per code |
| MeshPoints.DecodeBatchPoints | src/utils/meshpoint.rs:145-296 | point t is the cell corner of code t at its level plus the cell size times multiplier min(t, len-1) |
| MeshPoints.DecodeSingle | src/utils/meshpoint.rs:118-299 | a single code with a level decodes to its one mesh point |
| MeshPoints.RepeatedCode | src/utils/meshpoint.rs:346-367 | a batch that repeats one code, with non-empty multiplier arrays whose elements all equal one pair, decodes to that code's point at that pair everywhere |
| MeshPoints.MeshPointCorners | src/utils/meshpoint.rs:105-115 | multipliers (0,0) give the south-west corner, and (1,1) give the north-east corner, one cell away |
| MeshPoints.SouthWestBySlices | src/utils/meshpoint.rs:130-138 | the corner of a code is the corner computed from its nine slices |
| MeshPoints.OffsetNonNegative | src/utils/meshpoint.rs:149-278 | the offset that each level's digits add to the first-level corner is non-negative |
| MeshPoints.QuadIsHalfCount | src/utils/meshpoint.rs:19-24 | a quadrant digit adds 0 or 1 whole cells on each axis: North(d) rows and East(d) columns |
| MeshPoints.CornerRow | src/utils/meshpoint.rs:149-278 | the number of the level's cell heights from the equator to the corner the digits lay out, level by level |
| MeshPoints.CornerColumn | src/utils/meshpoint.rs:149-278 | the number of the level's cell widths from the prime meridian to that corner |
| MeshPoints.CornerOnLattice | src/utils/meshpoint.rs:149-278 | for every level and all digits, the decoded corner is exactly `CornerRow` cell heights and `CornerColumn` cell widths: corners lie on the level's grid |
| MeshPoints.SouthWestOnLattice | src/utils/meshpoint.rs:130-278 | the corner of any code at any level is a whole number of that level's cells north and east of (0, 0) |
| MeshPoints.SouthWestBound | src/utils/meshpoint.rs:6-15 | a code with at least two digits has its corner at latitude ≥ 20/3 and longitude ≥ 100 |
| MeshPoints.ApplyBaseAdjustment | src/utils/meshpoint.rs:6-15 | sets element idx to the first-level corner ab·2/3 and cd + 100 and leaves the rest unchanged |
| MeshPoints.ApplyQuadrant | src/utils/meshpoint.rs:271-276 | adds a cell north when the quadrant digit / 3 is 1 and a cell east when it is even |
| MeshPoints.ApplyLevel40000 | src/utils/meshpoint.rs:18-25 | adds the 40000 quadrant of digit e to element idx |
| MeshPoints.ApplyLevel2 | src/utils/meshpoint.rs:28-37 | adds e second-level rows and f columns to element idx |
| MeshPoints.ApplyLevel3 | src/utils/meshpoint.rs:40-55 | adds the second-level and third-level rows and columns |
| MeshPoints.ApplyLevel4 | src/utils/meshpoint.rs:58-78 | adds the third-level position and the fourth-level quadrant of digit i |
| MeshPoints.ApplyLevel5 | src/utils/meshpoint.rs:81-102 | adds the fourth-level position and the fifth-level quadrant of digit j |
| MeshPoints.ApplyLevel20000 | src/utils/meshpoint.rs:159-170 | adds the 40000 quadrant of digit e and the 20000 quadrant of digit f |
| MeshPoints.ApplyLevel16000 | src/utils/meshpoint.rs:173-176 | adds e/2 and f/2 cells of the 16000 size |
| MeshPoints.ApplyLevel8000 | src/utils/meshpoint.rs:179-182 | adds e and f cells of the 8000 size |
| MeshPoints.ApplyLevel4000 | src/utils/meshpoint.rs:185-197 | adds the 8000 position and the 4000 quadrant of digit h |
| MeshPoints.ApplyLevel5000 | src/utils/meshpoint.rs:205-216 | adds the second-level position and the 5000 quadrant of digit g |
| MeshPoints.ApplyLevel2500 | src/utils/meshpoint.rs:219-238 | adds the 5000 position and the 2500 quadrant of digit h |
| MeshPoints.ApplyLevel2000 | src/utils/meshpoint.rs:241-248 | adds the second-level position and g/2, h/2 cells of the 2000 size |
| MeshPoints.ApplyLevel6 | src/utils/meshpoint.rs:266-277 | adds the fifth-level position and the sixth-level quadrant of digit k |
| MeshPoints.ApplyMultipliers | src/utils/meshpoint.rs:105-115 | adds the cell size times the multiplier at index min(idx, len-1) |
| MeshPoints.ApplyLevel | src/utils/meshpoint.rs:149-278 | the level match adds exactly that level's offset to element idx |
| MeshPoints.DecodeOne | src/utils/meshpoint.rs:146-288 | one loop iteration sets element idx to the code's mesh point |
| MeshPoints.FillPoints | src/utils/meshpoint.rs:145-289 | after the loop, every element is its code's mesh point |
| MeshPoints.Stack | src/utils/meshpoint.rs:292-296 | builds a fresh 2×N array holding the latitudes in row 0 and the longitudes in row 1 |
| MeshPoints.DecodeLevels | src/utils/meshpoint.rs:129-298 | for inferred levels, column idx of the result is the mesh point of code idx |
| MeshPoints.ToMeshpoint | src/utils/meshpoint.rs:118-299 | fails exactly as `DecodeBatch` does; otherwise it returns a 2×N array whose column idx is point idx of `DecodeBatch` |
| RoundTrip.QuadrantInverse | src/utils/meshpoint.rs:19-24 | for quadrant q = 2a + b + 1, q / 3 = 1 exactly when a = 1, and q is even exactly when b = 1 |
| RoundTrip.QuadrantOffsets | src/utils/meshcode.rs:65-67 | decoding a quadrant digit adds the half cells in which the remainder lies |
| RoundTrip.CodeAppend | src/utils/meshcode.rs:66 | appending a digit to a composed code multiplies it by 10 and adds the digit |
| RoundTrip.Layout | src/utils/meshpoint.rs:130-138 | a composed code has 4 + n digits, ends in its last digit, and its corner is computed from its row, column and digits |
| RoundTrip.FirstLevel | src/utils/meshcode.rs:55-61 | for an encodable point, the first-level code is its row (10..99) and column (0..79), and the point is the row/column corner plus the remainders |
| RoundTrip.CodesLv2 | src/utils/meshcode.rs:93-100 | the second-level digits lie in 0..7 and compose the code |
| RoundTrip.CodesLv3 | src/utils/meshcode.rs:152-159 | the third-level digits lie in 0..9 and compose the code |
| RoundTrip.CodesLv4 | src/utils/meshcode.rs:161-167 | the fourth-level code is the third-level digits followed by a quadrant digit |
| RoundTrip.CodesLv5 | src/utils/meshcode.rs:169-175 | the fifth-level code is the fourth-level digits followed by a quadrant digit |
| RoundTrip.CodesLv6 | src/utils/meshcode.rs:177-185 | the sixth-level code is the fifth-level digits followed by a quadrant digit |
| RoundTrip.CodesX40 | src/utils/meshcode.rs:63-69 | the 40000 code is the first-level code followed by its quadrant digit |
| RoundTrip.CodesX20 | src/utils/meshcode.rs:71-81 | the 20000 code is the 40000 code followed by its quadrant digit and 5 |
| RoundTrip.CodesX16 | src/utils/meshcode.rs:83-91 | the 16000 digits are twice cell indices 0..4, followed by 7 |
| RoundTrip.CodesX8 | src/utils/meshcode.rs:102-110 | the 8000 digits are cell indices 0..9, followed by 6 |
| RoundTrip.CodesX4 | src/utils/meshcode.rs:120-129 | the 4000 code is the 8000 digits followed by its quadrant digit and 7 |
| RoundTrip.CodesX5 | src/utils/meshcode.rs:112-118 | the 5000 code is the second-level code followed by its quadrant digit |
| RoundTrip.CodesX2_5 | src/utils/meshcode.rs:131-140 | the 2500 code is the 5000 code followed by its quadrant digit and 6 |
| RoundTrip.CodesX2 | src/utils/meshcode.rs:142-150 | the 2000 digits are twice cell indices 0..4, followed by 5 |
| RoundTrip.EncodeThenDecode | src/utils/meshcode.rs:55-185 | for every level and every valid point at latitude ≥ 20/3, the code infers back to that level, and the point lies in the decoded cell |
| RoundTrip.DecodedCornersEnclose | src/utils/meshpoint.rs:105-115 | decoding an encoded point with multipliers 0 and 1 gives corners that enclose the point, half-open |
| RoundTrip.BatchLevelsRoundTrip | src/utils/meshlevel.rs:6-58 | a valid batch encoded at a level infers back to that level, element by element |
| RoundTrip.InferUniform | src/utils/meshlevel.rs:6-58 | a batch whose every code has the same level infers successfully, that level at every index |
| RoundTrip.LowLatitudeLv1 | src/utils/meshcode.rs:55-61 | a valid latitude below 20/3 gives a first-level code with fewer than four digits, which inference rejects |
| Envelopes.LatCount | src/utils/envelope.rs:98 | the number of grid rows: the ceiling of the latitude span over the cell height |
| Envelopes.LonCount | src/utils/envelope.rs:99 | the number of grid columns: the ceiling of the longitude span over the cell width |
| Envelopes.RowLat | src/utils/envelope.rs:105 | the latitude of grid row i, i cell heights north of the start |
| Envelopes.ColumnLon | src/utils/envelope.rs:109 | the longitude of grid column j, j cell widths east of the start |
| Envelopes.Envelope | src/utils/envelope.rs:87-117 | the encoding at the target level of the row-major grid from the start point, with `LatCount` rows and `LonCount` columns |
| Envelopes.CeilCount | src/utils/envelope.rs:98-99 | the count is 0 for a non-positive span and otherwise the ceiling of the span |
| Envelopes.ColumnOf | src/utils/envelope.rs:108 | the column of a grid position lies within the row |
| Envelopes.RowLats | src/utils/envelope.rs:108-113 | the inner loop pushes one latitude per column |
| Envelopes.RowLons | src/utils/envelope.rs:108-113 | the inner loop pushes one longitude per column |
| Envelopes.RowStep | src/utils/envelope.rs:108-113 | one more inner iteration appends the row latitude and the next column longitude |
| Envelopes.GridStep | src/utils/envelope.rs:104-114 | one more outer iteration appends a whole row |
| Envelopes.GridSize | src/utils/envelope.rs:100-114 | the grid holds exactly lat_count · lon_count points |
| Envelopes.GridNorthEast | src/utils/envelope.rs:105-109 | every grid point lies at or north-east of the start point |
| Envelopes.GridRowMajor | src/utils/envelope.rs:104-114 | point i·n + j of the grid is (lat_s + i·u_lat, lon_w + j·u_lon) |
| Envelopes.RowAndColumn | src/utils/envelope.rs:104-109 | the position i·n + j has row i and column j |
| Envelopes.GridElement | src/utils/envelope.rs:104-114 | every position below m·n splits into a row below m and a column |
| Envelopes.GridAt | src/utils/envelope.rs:104-114 | grid point t has the latitude of row t / n and the longitude of column t mod n |
| Envelopes.PushGrid | src/utils/envelope.rs:102-114 | the nested loops push exactly the row-major grid |
| Envelopes.MakeEnvelope | src/utils/envelope.rs:87-117 | counting, the nested loops and the batch encoding compute `Envelope` |
| Envelopes.EnvelopeCell | src/utils/envelope.rs:104-116 | code t of an envelope encodes grid row t / n, column t mod n |
| Envelopes.EnvelopeCells | src/utils/envelope.rs:98-116 | an envelope has ceil(Δlat/u_lat) · ceil(Δlon/u_lon) codes in row-major order, each the code of its grid point |
| Envelopes.EnvelopeOf | src/utils/envelope.rs:16-40 | the first inference error, or the level mismatch, or the envelope from the centre of the south-west cell to the north-east corner of the north-east cell |
| Envelopes.EnvelopeOfCorners | src/utils/envelope.rs:26-37 | the two decoded points are the south-west code's lattice corner plus half a cell, and the north-east code's lattice corner plus a whole cell |
| Envelopes.CountFromCentre | src/utils/envelope.rs:98-99 | from the centre of lattice cell a to the far edge of lattice cell b there are exactly b - a + 1 grid lines, or none when b < a |
| Envelopes.EnvelopeBlockSize | src/utils/envelope.rs:98-100 | such an envelope has (b - a + 1)·(d - c + 1) codes |
| Envelopes.EnvelopeLattice | src/utils/envelope.rs:98-116 | code t of such an envelope is the cell t / n rows and t mod n columns from lattice cell (a, c), n the number of columns |
| Envelopes.EnvelopeOfSize | src/utils/envelope.rs:16-40 | the envelope of two codes has one code per cell of the block from the south-west cell to the north-east cell |
| Envelopes.EnvelopeOfCell | src/utils/envelope.rs:16-40 | code t of the envelope of two codes is the cell t / n rows north and t mod n columns east of the south-west cell: the block in row-major order |
| Envelopes.EnvelopeOfDistinct | src/utils/envelope.rs:4-12 | no code occurs twice in the envelope of two codes |
| Envelopes.InRectangle | src/utils/envelope.rs:4-5 | a point lies in the rectangle from the south-west corner of the south-west cell to the north-east corner of the north-east cell |
| Envelopes.EnvelopeOfCovers | src/utils/envelope.rs:4-12 | every point of that rectangle lies in the cell of some code of the envelope |
| Envelopes.GridLatsInvalid | src/utils/envelope.rs:104-116 | some grid latitude is invalid exactly when the grid has a column and one of its rows is invalid |
| Envelopes.GridLonsInvalid | src/utils/envelope.rs:104-116 | some grid longitude is invalid exactly when the grid has a row and one of its columns is invalid |
| Envelopes.EnvelopeFails | src/utils/envelope.rs:87-117 | an envelope fails exactly when the grid is non-empty and a row or a column is out of bounds |
| Envelopes.GridPointLevel | src/utils/envelope.rs:105-116 | every valid grid point at latitude ≥ 20/3 encodes to a code of the target level |
| Envelopes.EnvelopeLevels | src/utils/envelope.rs:87-117 | every code of a successful envelope starting at latitude ≥ 20/3 has the target level |
| Envelopes.StartNorth | src/utils/envelope.rs:30 | a point decoded from a code with non-negative multipliers lies at latitude ≥ 20/3 |
| Envelopes.InferSingle | src/utils/envelope.rs:18-19 | inferring a one-code batch succeeds or fails exactly as its code does, with the same level or error |
| Envelopes.DecodePoint | src/utils/envelope.rs:30-37 | decoding one code with one pair of multipliers gives its mesh point |
| Envelopes.ToEnvelope | src/utils/envelope.rs:16-40 | the two inferences, the level check, the two decodings and the envelope compute `EnvelopeOf` |
| Envelopes.EnvelopeOfErrors | src/utils/envelope.rs:18-24 | the south-west code's inference error comes first, then the north-east code's; differing levels give `MismatchedMeshLevels(sw, ne)` |
| Envelopes.EnvelopeOfLevels | src/utils/envelope.rs:16-40 | on success both codes have the same level, and every code in the envelope has it |
| Envelopes.CentreToCorner | src/utils/envelope.rs:26-37 | from the centre of a cell to its north-east corner is one row and one column of that level |
| Envelopes.EnvelopeOfItself | src/utils/envelope.rs:124-131 | the envelope of a code with itself is a single code |
| Envelopes.Margin | src/utils/envelope.rs:61-71 | the margin lies in (0, 0.5] and is half the smaller of the two cell sizes, as a fraction of the source cell |
| Envelopes.ToIntersects | src/utils/envelope.rs:50-84 | the inference, the margins, the two decodings and the envelope compute `IntersectsOf` |
| Envelopes.IntersectsOf | src/utils/envelope.rs:50-84 | the inference error, or the envelope at the target level from the margin point of the cell to its north-east corner |
| Envelopes.BeforeEnd | src/utils/envelope.rs:104-109 | every grid line the count admits lies before the far edge |
| Envelopes.Meets | src/utils/envelope.rs:42 | two cells, of two levels, meet when some point lies in both |
| Envelopes.EnvelopeSample | src/utils/envelope.rs:104-116 | code t of an envelope starting at latitude ≥ 20/3 is the cell that holds grid point t, and that point lies within the envelope's edges |
| Envelopes.WithinCell | src/utils/envelope.rs:74-81 | a point between a cell's margin point and its north-east corner lies in that cell |
| Envelopes.IntersectsCell | src/utils/envelope.rs:42-84 | code t that the intersection returns names a cell that meets the cell of the input code |
| Envelopes.IntersectsSound | src/utils/envelope.rs:42-84 | every code the intersection returns names a cell that meets the cell of the input code |
| Envelopes.IntersectsOfError | src/utils/envelope.rs:52 | a code without a level yields its inference error |
| Envelopes.IntersectsOfLevels | src/utils/envelope.rs:143-169 | every code that the intersection returns has the target level |
| MeshPointExamples.Layout5339 | src/utils/meshpoint.rs:312 | 5339 is first-level, and its slices are 53, 39 |
| MeshPointExamples.Layout53391 | src/utils/meshpoint.rs:313 | 53391 is a 40000 code with quadrant 1 |
| MeshPointExamples.Layout5339115 | src/utils/meshpoint.rs:314 | 5339115 is a 20000 code with quadrants 1, 1 |
| MeshPointExamples.Layout5339007 | src/utils/meshpoint.rs:315 | 5339007 is a 16000 code with indices 0, 0 |
| MeshPointExamples.Layout533900 | src/utils/meshpoint.rs:316 | 533900 is second-level with digits 0, 0 |
| MeshPointExamples.Layout5339006 | src/utils/meshpoint.rs:317 | 5339006 is an 8000 code with digits 0, 0 |
| MeshPointExamples.Layout5339001 | src/utils/meshpoint.rs:318 | 5339001 is a 5000 code with quadrant 1 |
| MeshPointExamples.Layout533900617 | src/utils/meshpoint.rs:319 | 533900617 is a 4000 code with quadrant 1 |
| MeshPointExamples.Layout533900116 | src/utils/meshpoint.rs:320 | 533900116 is a 2500 code with quadrants 1, 1 |
| MeshPointExamples.Layout533900005 | src/utils/meshpoint.rs:321 | 533900005 is a 2000 code with indices 0, 0 |
| MeshPointExamples.Layout53390000 | src/utils/meshpoint.rs:322 | 53390000 is third-level |
| MeshPointExamples.Layout533900001 | src/utils/meshpoint.rs:323 | 533900001 is fourth-level with quadrant 1 |
| MeshPointExamples.Layout5339000011 | src/utils/meshpoint.rs:324 | 5339000011 is fifth-level with quadrants 1, 1 |
| MeshPointExamples.Layout53390000111 | src/utils/meshpoint.rs:325 | 53390000111 is sixth-level with quadrants 1, 1, 1 |
| MeshPointExamples.Layout53393599212 | src/utils/meshpoint.rs:326 | 53393599212 is sixth-level with digits 3, 5, 9, 9, 2, 1, 2 |
| MeshPointExamples.LeadingSlices53393599212 | src/utils/meshpoint.rs:326 | 53393599212 has 11 digits and its first four slices are 53, 39, 3, 5 |
| MeshPointExamples.TrailingSlices53393599212 | src/utils/meshpoint.rs:326 | its last five slices are 9, 9, 2, 1, 2 |
| MeshPointExamples.ZeroCorners | src/utils/meshpoint.rs:312-325 | the fourteen zero-offset digit patterns all have the corner (35 + 1/3, 139) |
| MeshPointExamples.CoarseCodesAtOrigin | src/utils/meshpoint.rs:312-318 | the seven coarser test codes decode, with multiplier 0, to (35 + 1/3, 139) |
| MeshPointExamples.FineCodesAtOrigin | src/utils/meshpoint.rs:319-325 | the seven finer test codes decode, with multiplier 0, to (35 + 1/3, 139) |
| MeshPointExamples.CentreOf53393599212 | src/utils/meshpoint.rs:326 | the centre of 53393599212 is at latitude 35 + 1/3 + 1/4 + 9/120 + 1/1920 and longitude 139.74609375 |
| MeshPointExamples.ZeroPointOf53390000111 | src/utils/meshpoint.rs:349-351 | 53390000111 is sixth-level and its point with multipliers 0 is (35 + 1/3, 139) |
| MeshPointExamples.CopiesOf53390000111 | src/utils/meshpoint.rs:346-367 | any number of copies of 53390000111, with zero multiplier arrays of the same length, decode to (35 + 1/3, 139) |
| EnvelopeExamples.Layout533901 | src/utils/envelope.rs:134 | 533901 is second-level with digits 0, 1 |
| EnvelopeExamples.Points5339 | src/utils/envelope.rs:30-32 | the centre of 5339 is (107/3, 139.5) and its north-east corner is (36, 140) |
| EnvelopeExamples.EncodeOnePoint | src/utils/meshcode.rs:26-30 | a valid one-point batch encodes to its one code |
| EnvelopeExamples.OneCellGrid | src/utils/envelope.rs:104-114 | a 1 × 1 grid is the start point |
| EnvelopeExamples.Code5339 | src/utils/envelope.rs:124-131 | the centre of 5339 encodes back to 5339 |
| EnvelopeExamples.Envelope5339 | src/utils/envelope.rs:124-131 | the envelope from the centre of 5339 to its corner is [5339] |
| EnvelopeExamples.EnvelopeOf5339 | src/utils/envelope.rs:124-131 | the envelope of 5339 with itself is [5339] |
| EnvelopeExamples.Points533900 | src/utils/envelope.rs:133-137 | the centre of 533900 and the north-east corner of 533901 |
| EnvelopeExamples.OneRowTwoColumns | src/utils/envelope.rs:104-114 | a 1 × 2 grid is the start point and the point one column east |
| EnvelopeExamples.EncodeTwoPoints | src/utils/meshcode.rs:26-30 | a valid two-point batch encodes element by element |
| EnvelopeExamples.Codes533900 | src/utils/envelope.rs:133-140 | the two grid points encode to 533900 and 533901 |
| EnvelopeExamples.Envelope533900 | src/utils/envelope.rs:133-140 | the envelope between the two points is [533900, 533901] |
| EnvelopeExamples.EnvelopeOf533900 | src/utils/envelope.rs:133-140 | the envelope of 533900 and 533901 is exactly [533900, 533901] |
| EnvelopeExamples.EnvelopeOfMismatch | src/utils/envelope.rs:173-180 | 5339 and 533900 give `MismatchedMeshLevels(Lv1, Lv2)` |
| EnvelopeExamples.Intersects5339IsEnvelope | src/utils/envelope.rs:50-84 | the second-level intersection of 5339 is the envelope from its first half second-level cell to its corner |
| EnvelopeExamples.Grid5339AtLv2 | src/utils/envelope.rs:98-100 | that grid is 8 × 8 and every row and column is in bounds |
| EnvelopeExamples.Envelope5339AtLv2 | src/utils/envelope.rs:98-116 | that envelope has 64 codes, the first 533900 |
| EnvelopeExamples.IntersectsOf5339 | src/utils/envelope.rs:143-156 | the second-level intersection of 5339 has 64 codes, the first 533900, all second-level |

## Left out

- Floating-point rounding is not modelled. Reals are exact, digit counting is an integer function
  rather than `log10().floor()`, and the tests' 1e-7 tolerance becomes exact equality.
  `RealOps.AsU64` does not saturate at 2^64, since every cast value here is below 200.
- Empty and mismatched batches are preconditions, not panics.
  - `MeshCodes.EncodeBatch` and `MeshCodes.ToMeshcode` require that the latitudes are empty exactly
    when the longitudes are, unless some coordinate is out of bounds (`EncodeDefined`). The source
    checks the bounds first and otherwise panics on `i % 0`.
  - `MeshPoints.DecodeBatch` and `MeshPoints.ToMeshpoint` require non-empty multipliers for a
    non-empty batch (`DecodeDefined`). The source underflows `len() - 1` otherwise.
- `ndarray` containers are sequences. The 2×N result of `to_meshpoint` is an `array2<real>`.
- `MeshPoints.ToMeshpoint`: its error type is `JismeshError`. The source's `Result<_, String>`
  carries the same error turned into its message text, and message texts are not modelled.
- The `thiserror` messages, the `strum` derive code (only its effect, the name table and the
  enumeration, is modelled), and the Japanese labels `to_string_jp` and `to_size_jp` are left out.
- src/lib.rs only re-exports. The `MeshCode` type and the `codes` module it names
  (`lower_level`, `contains`, `intersects`) are not part of this model.
- `Envelopes.CeilCount`: the saturating `as usize` cast of a negative or NaN ceiling is modelled as
  0 for every non-positive span; NaN cannot occur with exact reals.
- `Envelopes.ToEnvelope` and `Envelopes.ToIntersects` obtain each corner from `DecodePoint`, which
  decodes a code whose level is already known. The source calls `to_meshpoint` on a one-element
  batch, which infers the level a second time with the same outcome (`Envelopes.InferSingle`).
- `RoundTrip.EncodeThenDecode` holds only for latitudes ≥ 20/3. Below that, the first-level code
  has fewer than four digits and does not infer back (`RoundTrip.LowLatitudeLv1`).
- `Units.UnitLat` and `Units.UnitLon` state only positivity. The exact values and the subdivision
  of each level are stated by `Units.UnitsSubdivide` and `Units.LonIsThreeHalvesLat`.
- `MeshCodes.MeshcodeLv1` states digit bounds only for valid coordinates. The parent and digit
  relations of the finer codes are stated by their own encoders and by the `RoundTrip.Codes…`
  lemmas, which assume latitude ≥ 20/3.
- There is no bound on the size of an envelope, and allocation capacity hints are not modelled.
- `to_intersects` from a coarser level to a finer level that does not subdivide it (for example
  40000 to 16000) starts half a target cell inside the source cell. It can therefore miss a
  partly overlapping row or column. The model follows the source's margin formula as written.
  `Envelopes.IntersectsSound` proves that each code returned meets the cell; it does not claim
  that every meeting code is returned.
