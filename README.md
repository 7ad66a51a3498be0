# ttf-parser table generator, modelled in Dafny

`scripts/gen-tables.py` is the layout compiler of ttf-parser. It holds a
catalogue of font-table record schemas. Each schema is a list of rows:
enabled or not, a field type, the field's name in the OpenType
specification, and whether it is optional. For each schema the script
prints a Rust struct over the record's bytes, with:

- a size constant;
- a constructor;
- one accessor per enabled row before the first optional row;
- optionally, a `FromData` impl.

It can also print a named byte-offset constant for a single field.

The model has six modules:

- `FieldTypes` (`field_types.dfy`): the closed set of field types.
  - For each type: its width in bytes, the Rust type of its accessor, and
    what the emitted read expression returns (`Decode`).
  - A big-endian encoder (`EncodeField`) is `Decode`'s partner, with round
    trips in both directions.
- `SnakeCase` (`snake_case.dfy`): `to_snake_case`, as the two
  regular-expression substitutions followed by lower-casing, proved equal
  to a reference that puts one underscore at every word boundary.
- `Layout` (`layout.dfy`): the specification functions the generator's loops
  are proved against, and the lemmas about them.
  - Prefix length, summed widths (offsets) and the fixed struct size.
  - The accessor list and name lookup.
- `Emitter` (`emitter.dfy`): `generate_table` and `table_field_offset` as
  methods with loops.
  - The struct shape, size constant, constructor and impl header that
    `print_struct`, `print_struct_size`, `print_constructor` and
    `generate_table` choose.
  - A run-time model of the emitted constructor and accessors. `None`
    stands for a Rust panic.
- `Catalogue` (`catalogue.dfy`): the 19 schemas of the script, their proved
  sizes, accessors and named offsets, and the script's sequence of
  generator calls.
- `Wrappers` (`wrappers.dfy`): `Option` and `Result`.

The output is not modelled as text. Each emitted item is modelled as a
descriptor: `TableCode` for a struct and `OffsetConst` for a named offset.
The two exceptions the script can raise are `Result` errors:

- `NotImplementedError`: an enabled row whose type has no Rust reading
  (`GenError.NotImplemented`).
- `ValueError('unknown field')`: `GenError.UnknownField`.

Three behaviours of the code worth noting:

- The owned constructor (`clone_from_slice`) panics unless the input is
  exactly `SIZE` bytes long. This applies to longer inputs as well as
  shorter ones.
- The tail constructor checks nothing, so an accessor of a too-short tail
  record panics (`Emitter.TailRecordNeedsMinSize`).
- `table_field_offset` walks every row, optional and disabled rows included,
  not only the fixed prefix.

## Model

| member | source | states |
|---|---|---|
| `FieldTypes.Width` | scripts/gen-tables.py:12-173 | every type's `size()` lies between 1 and 10 bytes; the size-only types are at least 4 |
| `FieldTypes.ToRust` | scripts/gen-tables.py:12-173 | `to_rust()` fails with NotImplemented exactly for Fixed, LONGDATETIME and Panose (the base class raises, and these three do not override it) |
| `FieldTypes.Decode` | scripts/gen-tables.py:23-156 | an emitted read expression yields a value exactly for the supported types, and the value is in its type's range (an optional offset is never a present zero) |
| `FieldTypes.DecodeHasRustType` | scripts/gen-tables.py:23-156 | the value an accessor reads has the Rust type its signature declares (`to_rust()`) |
| `FieldTypes.IntegerDecodeIsBigEndian` | scripts/gen-tables.py:23-91 | the u8/u16/i16/u24/u32 read expressions, including the shift-or form for UInt24, are the big-endian reading of the field's own bytes, two's-complement for Int16 and FWORD |
| `FieldTypes.ShiftOrIsSum` | scripts/gen-tables.py:63-65 | on bytes widened to u32, `a << 16 \| b << 8 \| c` equals the sum the model uses |
| `FieldTypes.OptionalOffsetAbsentIffZero` | scripts/gen-tables.py:93-120 | an optional offset is `None` exactly when its raw big-endian value is 0, otherwise `Some` of that value |
| `FieldTypes.AliasesInherit` | scripts/gen-tables.py:81-107 | FWORD, UFWORD, Offset16 and Offset32 have their parent's width, Rust type and decoding |
| `FieldTypes.DecodeIsLocal` | scripts/gen-tables.py:23-156 | an accessor reads only the field's own `size()` bytes |
| `FieldTypes.BigEndianOfToBigEndian` | scripts/gen-tables.py:34-78 | the reference big-endian reading inverts the encoder |
| `FieldTypes.ToBigEndianOfBigEndian` | scripts/gen-tables.py:34-78 | the encoder inverts the reference big-endian reading |
| `FieldTypes.DecodeEncode` | scripts/gen-tables.py:23-156 | decoding the encoding of any in-range value of a supported type gives the value back |
| `FieldTypes.EncodeDecode` | scripts/gen-tables.py:23-156 | encoding what any supported field decodes to gives its bytes back |
| `SnakeCase.ToSnakeCase` | scripts/gen-tables.py:7-9 | the result has no upper-case letter, and is the lower-cased name with underscores inserted and nothing else changed |
| `SnakeCase.ToSnakeCaseSeparatesWords` | scripts/gen-tables.py:7-9 | the result is exactly the name, lower-cased, with one underscore after every character where a lower-case letter or digit meets a capital, or where a capitalised word (a capital, then a lower-case letter) starts after any character but a line feed (by this rule `defaultUVSOffset` gives `default_uvs_offset` and `ABc` gives `a_bc`) |
| `SnakeCase.PassesSeparate` | scripts/gen-tables.py:8-9 | from any point where the first substitution resumes its search, the two substitutions insert underscores exactly at the word boundaries ahead, including the boundary at the end of a run the first one consumed |
| `SnakeCase.SeparatesMatch` | scripts/gen-tables.py:8 | where the first substitution matches, the underscore it inserts after the matched character is the word boundary there, and the second substitution adds none beside it |
| `SnakeCase.SeparatesSkip` | scripts/gen-tables.py:8-9 | where the first substitution does not match, the second substitution alone decides the boundary after that character, and decides it as the reference does |
| `SnakeCase.SplitCamelCons` | scripts/gen-tables.py:9 | the second substitution is local: it emits each character, then an underscore exactly when that character is a lower-case letter or digit and the next is a capital |
| `SnakeCase.LowerUndoesUpper` | scripts/gen-tables.py:510 | upper-casing a name without upper-case letters and lower-casing it again gives the name back |
| `SnakeCase.SplitCamelSplitsEveryBoundary` | scripts/gen-tables.py:9 | after the second substitution, no lower-case letter or digit is directly followed by an upper-case letter |
| `SnakeCase.ToSnakeCaseIdentityOnLower` | scripts/gen-tables.py:7-9 | a name without upper-case letters passes through unchanged |
| `SnakeCase.ToSnakeCaseIdempotent` | scripts/gen-tables.py:7-9 | converting a converted name changes nothing |
| `Layout.FnName` | scripts/gen-tables.py:443-444 | an accessor's Rust name has no upper-case letter |
| `Layout.PrefixLenIsFirstOptional` | scripts/gen-tables.py:467-472 | the size loop stops at the first optional row: every row before it is non-optional, and the row it stops at is optional unless it reached the end |
| `Layout.PrefixLenUnique` | scripts/gen-tables.py:467-472 | any index with those two properties is the prefix length |
| `Layout.StructSizeWithoutOptional` | scripts/gen-tables.py:467-472 | without an optional row, the struct size is the width of all rows |
| `Layout.StructSizeIgnoresTail` | scripts/gen-tables.py:467-472 | rows after the first optional row do not affect the size |
| `Layout.OffsetsIncrease` | scripts/gen-tables.py:485-497 | every row starts after every earlier row has ended |
| `Layout.SumToDependsOnPrefix` | scripts/gen-tables.py:485-497 | a row's offset depends only on the types of the rows before it |
| `Layout.EnabledIndicesExact` | scripts/gen-tables.py:485-497 | the rows that get an accessor are exactly the enabled rows of the prefix, in increasing order |
| `Layout.AccessorsAreEnabledRows` | scripts/gen-tables.py:485-497 | accessor `j` has the name, type and offset of the `j`-th enabled row; disabled rows only advance the offset |
| `Layout.AccessorsInBounds` | scripts/gen-tables.py:467-497 | every accessor reads inside the struct size |
| `Layout.AccessorsOrdered` | scripts/gen-tables.py:485-497 | accessors' byte ranges follow one another without overlap |
| `Layout.EnabledSupportedToIff` | scripts/gen-tables.py:485-497 | generation of the accessors succeeds exactly when every enabled prefix row has a supported type |
| `Layout.FindNameFromIsFirst` | scripts/gen-tables.py:506-515 | the lookup finds the first row with the name, and fails exactly when no row has it |
| `Emitter.StructShapeOf` | scripts/gen-tables.py:407-414 | the struct carries a lifetime exactly when it has a tail or is not owned, and it can hold any data with a tail, otherwise exactly `size` bytes |
| `Emitter.SizeConstName` | scripts/gen-tables.py:417-421 | the constant is `MIN_SIZE` exactly when the shape is the slice-backed tail shape, and `SIZE` otherwise |
| `Emitter.ConstructorOf` | scripts/gen-tables.py:424-440 | the chosen constructor accepts an input exactly when the record has a tail or the input is exactly `size` bytes |
| `Emitter.ImplHasLifetimeAsWritten` | scripts/gen-tables.py:476-479 | the impl header as written agrees with the struct's lifetime except exactly when `owned` and `has_tail` are both set |
| `Emitter.New` | scripts/gen-tables.py:424-440 | a constructed record holds exactly its input |
| `Emitter.Call` | scripts/gen-tables.py:443-450 | an accessor that does not panic read inside the record and had a supported type |
| `Emitter.ConstructorMatchesShape` | scripts/gen-tables.py:407-440 | the constructor succeeds exactly on the inputs the struct shape can hold (any length with a tail, otherwise exactly SIZE); the constant is `MIN_SIZE` exactly for the slice-backed shape |
| `Emitter.ImplHeaderAsWrittenMismatch` | scripts/gen-tables.py:476-479 | with `owned` and `has_tail` both set, the struct is declared with `<'a>` and the impl header as written is not |
| `Emitter.ImplHeaderMatchesStruct` | scripts/gen-tables.py:407-414 | the corrected impl header carries a lifetime exactly when the struct does |
| `Emitter.ImplHeaderCorrectionConservative` | scripts/gen-tables.py:476-479 | on every flag combination but `owned` with `has_tail`, the corrected header is the one written |
| `Emitter.GenerateTable` | scripts/gen-tables.py:465-503 | succeeds exactly when every enabled prefix row has a Rust type, otherwise fails with NotImplemented; on success it yields the struct size summed up to the first optional row, the shape, constant, constructor and impl header, the accessors of the enabled prefix rows at their offsets, and the `FromData` flag |
| `Emitter.GeneratedAccessorsNeverPanic` | scripts/gen-tables.py:424-497 | once the constructor accepts the input (and a tail record is at least MIN_SIZE long), every emitted accessor returns the decoding of its own bytes |
| `Emitter.TailRecordNeedsMinSize` | scripts/gen-tables.py:426-429 | the tail constructor accepts a record too short for an accessor, and that accessor then panics |
| `Emitter.ConstName` | scripts/gen-tables.py:510 | the offset constant's name has no lower-case letter, ends in `_OFFSET`, and its stem lower-cased is the field's snake-case name |
| `Emitter.TableFieldOffset` | scripts/gen-tables.py:506-515 | fails with UnknownField exactly when no row has the name; otherwise the constant is the summed width of all rows before the first such row |
| `Emitter.OffsetConstMatchesAccessor` | scripts/gen-tables.py:485-515 | for an enabled prefix row, the named offset equals the offset of that row's accessor |
| `Catalogue.TtcHeaderLayout` | scripts/gen-tables.py:189-195 | TTCHeader is 12 bytes, with no optional row, and every enabled row is readable |
| `Catalogue.TableRecordLayout` | scripts/gen-tables.py:198-203 | TableRecord is 16 bytes |
| `Catalogue.HeadTableLayout` | scripts/gen-tables.py:206-225 | `head` is 54 bytes; its Fixed and LONGDATETIME rows are disabled, so generation succeeds |
| `Catalogue.HheaTableLayout` | scripts/gen-tables.py:228-247 | `hhea` is 36 bytes |
| `Catalogue.HmtxMetricsLayout` | scripts/gen-tables.py:250-253 | a horizontal metric is 4 bytes |
| `Catalogue.VheaTableLayout` | scripts/gen-tables.py:256-274 | `vhea` is 36 bytes; its Fixed version row is disabled |
| `Catalogue.VmtxMetricsLayout` | scripts/gen-tables.py:277-280 | a vertical metric is 4 bytes |
| `Catalogue.NameRecordTableLayout` | scripts/gen-tables.py:283-290 | a name record is 12 bytes |
| `Catalogue.CmapEncodingRecordLayout` | scripts/gen-tables.py:293-297 | an encoding record is 8 bytes |
| `Catalogue.CmapSubHeaderRecordLayout` | scripts/gen-tables.py:300-305 | a format-2 sub-header is 8 bytes |
| `Catalogue.CmapSequentialMapGroupRecordLayout` | scripts/gen-tables.py:308-312 | a sequential map group is 12 bytes |
| `Catalogue.CmapUnicodeRangeRecordLayout` | scripts/gen-tables.py:315-318 | a Unicode range record is 4 bytes, with a 24-bit start |
| `Catalogue.CmapUvsMappingRecordLayout` | scripts/gen-tables.py:321-324 | a UVS mapping record is 5 bytes |
| `Catalogue.CmapVariationSelectorRecordLayout` | scripts/gen-tables.py:327-331 | a variation selector record is 11 bytes |
| `Catalogue.MaxpTableLayout` | scripts/gen-tables.py:334-337 | `maxp` is 6 bytes |
| `Catalogue.Os2TableLayout` | scripts/gen-tables.py:340-380 | OS/2's first optional row is row 30 (`ulCodePageRange1`), and its fixed prefix, whose Panose row is disabled, is 78 bytes |
| `Catalogue.GdefTableLayout` | scripts/gen-tables.py:383-392 | GDEF's first optional row is row 6, and its fixed prefix is 12 bytes |
| `Catalogue.GdefClassRangeRecordLayout` | scripts/gen-tables.py:395-398 | a class range record is 6 bytes |
| `Catalogue.GdefRangeRecordLayout` | scripts/gen-tables.py:401-404 | a coverage range record is 6 bytes |
| `Catalogue.Os2SxHeightOffset` | scripts/gen-tables.py:340-380 | `sxHeight` is row 32 of OS/2, 86 bytes in: past the prefix and the two optional code-page ranges |
| `Catalogue.GdefMarkGlyphSetsDefOffset` | scripts/gen-tables.py:383-392 | `markGlyphSetsDefOffset` is row 6 of GDEF, at byte 12 |
| `Catalogue.TableRecordAccessors` | scripts/gen-tables.py:198-203 | TableRecord gets accessors for the tag at 0, the offset at 8 and the length at 12; the disabled checksum is skipped |
| `Catalogue.HeadTableAccessors` | scripts/gen-tables.py:206-225 | `head` gets exactly two accessors: `unitsPerEm` at 18 and `indexToLocFormat` at 50 |
| `Catalogue.GdefTableAccessors` | scripts/gen-tables.py:383-392 | the GDEF header gets accessors for its two versions and the glyph and mark-attach class-definition offsets, at 0, 2, 4 and 10 |
| `Catalogue.GenerateTopLevel` | scripts/gen-tables.py:537-539 | the two top-level records are `TTCHeader`, a borrowed 12-byte array without `FromData`, and `TableRecord`, an owned 16-byte array with `FromData` |
| `Catalogue.GenerateHead` | scripts/gen-tables.py:541-543 | `pub mod head` holds one item: `Table`, a borrowed 54-byte array without `FromData` |
| `Catalogue.GenerateMaxp` | scripts/gen-tables.py:545-547 | `pub mod maxp` holds one item: `Table`, a borrowed 6-byte array without `FromData` |
| `Catalogue.GenerateHhea` | scripts/gen-tables.py:549-551 | `pub mod hhea` holds one item: `Table`, a borrowed 36-byte array without `FromData` |
| `Catalogue.GenerateHmtx` | scripts/gen-tables.py:553-557 | `pub mod hmtx` holds one item: `HorizontalMetrics`, an owned 4-byte array with `FromData` |
| `Catalogue.GenerateVhea` | scripts/gen-tables.py:559-561 | `pub mod vhea` holds one item: `Table`, a borrowed 36-byte array without `FromData` |
| `Catalogue.GenerateVmtx` | scripts/gen-tables.py:563-567 | `pub mod vmtx` holds one item: `VerticalMetrics`, an owned 4-byte array with `FromData` |
| `Catalogue.GenerateCmap` | scripts/gen-tables.py:569-584 | the six `cmap` records, in order, with their struct names, are 8, 8, 12, 4, 5 and 11 bytes, each an owned array with `FromData` |
| `Catalogue.GenerateOs2` | scripts/gen-tables.py:586-590 | `pub mod os_2` holds the offset constant for `sxHeight` at 86, then `Table`, a slice-backed tail struct with a 78-byte minimum, without `FromData` |
| `Catalogue.GenerateName` | scripts/gen-tables.py:592-594 | `pub mod name` holds one item: `NameRecord`, an owned 12-byte array without `FromData` |
| `Catalogue.GenerateGdef` | scripts/gen-tables.py:596-608 | `pub mod gdef` holds the constant for `markGlyphSetsDefOffset` at 12, then `Table`, a tail struct with a 12-byte minimum, then `ClassRangeRecord` and `RangeRecord`, owned 6-byte arrays with `FromData` |
| `Catalogue.GenerateFile` | scripts/gen-tables.py:537-608 | none of the script's 21 calls fails; the items carry the sizes and offsets 12, 16, 54, 6, 36, 4, 36, 4, 8, 8, 12, 4, 5, 11, 86, 78, 12, 12, 12, 6, 6 in file order |

## Left out

- The printed text is not modelled. This covers the file preamble, the `array_ref!` macro, the `use` lines, `#[inline]` attributes and blank lines. Each item is modelled as a descriptor of what it declares.
- The Rust side is not modelled beyond bounds checks and the values read. A panic is modelled as `None`; borrowing, `Copy`/`Clone` and the `FromData` trait are not modelled.
- Emitter.GenerateTable: on NotImplemented it returns an error. It does not model the struct, constant and constructor text that the script has already printed before raising.
- Emitter.GenerateTable: it emits the corrected impl header (see Findings), not the one written.
- A `FromData` impl on a record with a tail would refer to a `SIZE` that record does not declare. The script never asks for that combination, and it is not modelled.
- Case mapping is ASCII only, as is `str.upper()`/`str.lower()` on the script's names; non-ASCII case mapping is not modelled.
- Catalogue: the per-module methods state each item's module, struct name, shape, `FromData` flag and size, or its offset constant. The accessor lists are proved for TableRecord, `head` and GDEF only.
- testing-tools/ttf-fuzz/src/fuzz-name.rs is a fuzzing entry point for the generated parser and is not part of this model.

## Findings

| source | as written | input that shows it | evidently intended | confidence | as-written member | corrected member |
|---|---|---|---|---|---|---|
| scripts/gen-tables.py:476-479 | the impl header gets `<'a>` exactly when `owned` is false | `generate_table(t, 'X', owned=True, has_tail=True)`: `print_struct` emits `pub struct X<'a>` and the impl header is `impl X {` | the impl header carries `<'a>` whenever the struct does, i.e. when `has_tail` or not `owned` | not executed; the script's own calls never combine the two flags | `Emitter.ImplHeaderAsWrittenMismatch` | `Emitter.ImplHeaderMatchesStruct` |
