/**
 * The record catalogue and the script that drives the generator over it.
 * Each schema lists the record's fields in file order, as
 * `TableRow(enable, type, name, optional)`; the lemmas evaluate the layout
 * functions on them, and `GenerateFile` is the script's sequence of
 * `generate_table` and `table_field_offset` calls.
 */
module Catalogue {
  import opened Wrappers
  import opened FieldTypes
  import opened Layout
  import opened Emitter

  /** The font collection header (version 1.0 part). */
  const TTC_HEADER: seq<TableRow> :=
    [
      TableRow(true, Tag, "ttcTag", false),
      TableRow(false, UInt16, "majorVersion", false),
      TableRow(false, UInt16, "minorVersion", false),
      TableRow(true, UInt32, "numFonts", false)
    ]

  /** A table record of the font file's table directory. */
  const TABLE_RECORD: seq<TableRow> :=
    [
      TableRow(true, Tag, "tableTag", false),
      TableRow(false, UInt32, "checkSum", false),
      TableRow(true, Offset32, "offset", false),
      TableRow(true, UInt32, "length", false)
    ]

  /** The font header table, `head`. */
  const HEAD_TABLE: seq<TableRow> :=
    [
      TableRow(false, UInt16, "majorVersion", false),
      TableRow(false, UInt16, "minorVersion", false),
      TableRow(false, Fixed, "fontRevision", false),
      TableRow(false, UInt32, "checkSumAdjustment", false),
      TableRow(false, UInt32, "magicNumber", false),
      TableRow(false, UInt16, "flags", false)
    ]
    + [
      TableRow(true, UInt16, "unitsPerEm", false),
      TableRow(false, LongDateTime, "created", false),
      TableRow(false, LongDateTime, "modified", false),
      TableRow(false, Int16, "xMin", false),
      TableRow(false, Int16, "yMin", false),
      TableRow(false, Int16, "xMax", false)
    ]
    + [
      TableRow(false, Int16, "yMax", false),
      TableRow(false, UInt16, "macStyle", false),
      TableRow(false, UInt16, "lowestRecPPEM", false),
      TableRow(false, Int16, "fontDirectionHint", false),
      TableRow(true, Int16, "indexToLocFormat", false),
      TableRow(false, Int16, "glyphDataFormat", false)
    ]

  /** The horizontal header table, `hhea`. */
  const HHEA_TABLE: seq<TableRow> :=
    [
      TableRow(false, UInt16, "majorVersion", false),
      TableRow(false, UInt16, "minorVersion", false),
      TableRow(true, FWord, "ascender", false),
      TableRow(true, FWord, "descender", false),
      TableRow(true, FWord, "lineGap", false),
      TableRow(false, UFWord, "advanceWidthMax", false)
    ]
    + [
      TableRow(false, FWord, "minLeftSideBearing", false),
      TableRow(false, FWord, "minRightSideBearing", false),
      TableRow(false, FWord, "xMaxExtent", false),
      TableRow(false, Int16, "caretSlopeRise", false),
      TableRow(false, Int16, "caretSlopeRun", false),
      TableRow(false, Int16, "caretOffset", false)
    ]
    + [
      TableRow(false, Int16, "reserved", false),
      TableRow(false, Int16, "reserved", false),
      TableRow(false, Int16, "reserved", false),
      TableRow(false, Int16, "reserved", false),
      TableRow(false, Int16, "metricDataFormat", false),
      TableRow(true, UInt16, "numberOfHMetrics", false)
    ]

  /** One long horizontal metric record of `hmtx`. */
  const HMTX_METRICS: seq<TableRow> :=
    [
      TableRow(true, UInt16, "advanceWidth", false),
      TableRow(true, Int16, "lsb", false)
    ]

  /** The vertical header table, `vhea`. */
  const VHEA_TABLE: seq<TableRow> :=
    [
      TableRow(false, Fixed, "version", false),
      TableRow(false, Int16, "ascender", false),
      TableRow(false, Int16, "descender", false),
      TableRow(false, Int16, "lineGap", false),
      TableRow(false, Int16, "advanceHeightMax", false),
      TableRow(false, Int16, "minTopSideBearing", false)
    ]
    + [
      TableRow(false, Int16, "minBottomSideBearing", false),
      TableRow(false, Int16, "yMaxExtent", false),
      TableRow(false, Int16, "caretSlopeRise", false),
      TableRow(false, Int16, "caretSlopeRun", false),
      TableRow(false, Int16, "caretOffset", false),
      TableRow(false, Int16, "reserved", false)
    ]
    + [
      TableRow(false, Int16, "reserved", false),
      TableRow(false, Int16, "reserved", false),
      TableRow(false, Int16, "reserved", false),
      TableRow(false, Int16, "metricDataFormat", false),
      TableRow(true, UInt16, "numOfLongVerMetrics", false)
    ]

  /** One long vertical metric record of `vmtx`. */
  const VMTX_METRICS: seq<TableRow> :=
    [
      TableRow(true, UInt16, "advanceHeight", false),
      TableRow(true, Int16, "topSideBearing", false)
    ]

  /** A name record of the naming table, `name`. */
  const NAME_RECORD_TABLE: seq<TableRow> :=
    [
      TableRow(true, UInt16, "platformID", false),
      TableRow(true, UInt16, "encodingID", false),
      TableRow(true, UInt16, "languageID", false),
      TableRow(true, UInt16, "nameID", false),
      TableRow(true, UInt16, "length", false),
      TableRow(true, UInt16, "offset", false)
    ]

  /** An encoding record of `cmap`. */
  const CMAP_ENCODING_RECORD: seq<TableRow> :=
    [
      TableRow(true, UInt16, "platformID", false),
      TableRow(true, UInt16, "encodingID", false),
      TableRow(true, Offset32, "offset", false)
    ]

  /** A sub-header of `cmap` format 2. */
  const CMAP_SUB_HEADER_RECORD: seq<TableRow> :=
    [
      TableRow(true, UInt16, "firstCode", false),
      TableRow(true, UInt16, "entryCount", false),
      TableRow(true, Int16, "idDelta", false),
      TableRow(true, UInt16, "idRangeOffset", false)
    ]

  /** A sequential map group of `cmap` format 12. */
  const CMAP_SEQUENTIAL_MAP_GROUP_RECORD: seq<TableRow> :=
    [
      TableRow(true, UInt32, "startCharCode", false),
      TableRow(true, UInt32, "endCharCode", false),
      TableRow(true, UInt32, "startGlyphID", false)
    ]

  /** A Unicode range record of a default UVS table (`cmap` format 14). */
  const CMAP_UNICODE_RANGE_RECORD: seq<TableRow> :=
    [
      TableRow(true, UInt24, "startUnicodeValue", false),
      TableRow(true, UInt8, "additionalCount", false)
    ]

  /** A UVS mapping record of a non-default UVS table (`cmap` format 14). */
  const CMAP_UVS_MAPPING_RECORD: seq<TableRow> :=
    [
      TableRow(true, UInt24, "unicodeValue", false),
      TableRow(true, GlyphId, "glyphID", false)
    ]

  /** A variation selector record of `cmap` format 14. */
  const CMAP_VARIATION_SELECTOR_RECORD: seq<TableRow> :=
    [
      TableRow(true, UInt24, "varSelector", false),
      TableRow(true, OptionalOffset32, "defaultUVSOffset", false),
      TableRow(true, OptionalOffset32, "nonDefaultUVSOffset", false)
    ]

  /** The maximum profile table, `maxp` (the fields every version has). */
  const MAXP_TABLE: seq<TableRow> :=
    [
      TableRow(false, Fixed, "version", false),
      TableRow(true, UInt16, "numGlyphs", false)
    ]

  /** The OS/2 and Windows metrics table; the rows from `ulCodePageRange1` on are optional. */
  const OS_2_TABLE: seq<TableRow> :=
    [
      TableRow(true, UInt16, "version", false),
      TableRow(false, Int16, "xAvgCharWidth", false),
      TableRow(true, UInt16, "usWeightClass", false),
      TableRow(true, UInt16, "usWidthClass", false),
      TableRow(false, UInt16, "fsType", false),
      TableRow(true, Int16, "ySubscriptXSize", false)
    ]
    + [
      TableRow(true, Int16, "ySubscriptYSize", false),
      TableRow(true, Int16, "ySubscriptXOffset", false),
      TableRow(true, Int16, "ySubscriptYOffset", false),
      TableRow(true, Int16, "ySuperscriptXSize", false),
      TableRow(true, Int16, "ySuperscriptYSize", false),
      TableRow(true, Int16, "ySuperscriptXOffset", false)
    ]
    + [
      TableRow(true, Int16, "ySuperscriptYOffset", false),
      TableRow(true, Int16, "yStrikeoutSize", false),
      TableRow(true, Int16, "yStrikeoutPosition", false),
      TableRow(false, Int16, "sFamilyClass", false),
      TableRow(false, Panose, "panose", false),
      TableRow(false, UInt32, "ulUnicodeRange1", false)
    ]
    + [
      TableRow(false, UInt32, "ulUnicodeRange2", false),
      TableRow(false, UInt32, "ulUnicodeRange3", false),
      TableRow(false, UInt32, "ulUnicodeRange4", false),
      TableRow(false, Tag, "achVendID", false),
      TableRow(true, UInt16, "fsSelection", false),
      TableRow(false, UInt16, "usFirstCharIndex", false)
    ]
    + [
      TableRow(false, UInt16, "usLastCharIndex", false),
      TableRow(false, Int16, "sTypoAscender", false),
      TableRow(false, Int16, "sTypoDescender", false),
      TableRow(false, Int16, "sTypoLineGap", false),
      TableRow(false, UInt16, "usWinAscent", false),
      TableRow(false, UInt16, "usWinDescent", false)
    ]
    + [
      TableRow(false, UInt32, "ulCodePageRange1", true),
      TableRow(false, UInt32, "ulCodePageRange2", true),
      TableRow(false, Int16, "sxHeight", true),
      TableRow(false, Int16, "sCapHeight", true),
      TableRow(false, UInt16, "usDefaultChar", true),
      TableRow(false, UInt16, "usBreakChar", true)
    ]
    + [
      TableRow(false, UInt16, "usMaxContext", true),
      TableRow(false, UInt16, "usLowerOpticalPointSize", true),
      TableRow(false, UInt16, "usUpperOpticalPointSize", true)
    ]

  /** The glyph definition table header, `GDEF`; the rows of version 1.2 on are optional. */
  const GDEF_TABLE: seq<TableRow> :=
    [
      TableRow(true, UInt16, "majorVersion", false),
      TableRow(true, UInt16, "minorVersion", false),
      TableRow(true, OptionalOffset16, "glyphClassDefOffset", false),
      TableRow(false, OptionalOffset16, "attachListOffset", false),
      TableRow(false, OptionalOffset16, "ligCaretListOffset", false),
      TableRow(true, OptionalOffset16, "markAttachClassDefOffset", false)
    ]
    + [
      TableRow(false, OptionalOffset16, "markGlyphSetsDefOffset", true),
      TableRow(false, OptionalOffset32, "itemVarStoreOffset", true)
    ]

  /** A class range record of a class definition table, format 2. */
  const GDEF_CLASS_RANGE_RECORD: seq<TableRow> :=
    [
      TableRow(true, GlyphIdRangeInclusive, "range", false),
      TableRow(true, UInt16, "class", false)
    ]

  /** A range record of a coverage table, format 2. */
  const GDEF_RANGE_RECORD: seq<TableRow> :=
    [
      TableRow(true, GlyphIdRangeInclusive, "range", false),
      TableRow(false, UInt16, "startCoverageIndex", false)
    ]

  // ---------------------------------------------------------------------
  // The rows one by one, at most six per lemma, so that the proofs below
  // look rows up in these facts rather than in the literals
  // ---------------------------------------------------------------------

  lemma TtcHeaderRows()
    ensures |TTC_HEADER| == 4
    ensures TTC_HEADER[0] == TableRow(true, Tag, "ttcTag", false)
    ensures TTC_HEADER[1] == TableRow(false, UInt16, "majorVersion", false)
    ensures TTC_HEADER[2] == TableRow(false, UInt16, "minorVersion", false)
    ensures TTC_HEADER[3] == TableRow(true, UInt32, "numFonts", false)
  {
  }

  lemma TableRecordRows()
    ensures |TABLE_RECORD| == 4
    ensures TABLE_RECORD[0] == TableRow(true, Tag, "tableTag", false)
    ensures TABLE_RECORD[1] == TableRow(false, UInt32, "checkSum", false)
    ensures TABLE_RECORD[2] == TableRow(true, Offset32, "offset", false)
    ensures TABLE_RECORD[3] == TableRow(true, UInt32, "length", false)
  {
  }

  lemma HeadTableRows0()
    ensures |HEAD_TABLE| == 18
    ensures HEAD_TABLE[0] == TableRow(false, UInt16, "majorVersion", false)
    ensures HEAD_TABLE[1] == TableRow(false, UInt16, "minorVersion", false)
    ensures HEAD_TABLE[2] == TableRow(false, Fixed, "fontRevision", false)
    ensures HEAD_TABLE[3] == TableRow(false, UInt32, "checkSumAdjustment", false)
    ensures HEAD_TABLE[4] == TableRow(false, UInt32, "magicNumber", false)
    ensures HEAD_TABLE[5] == TableRow(false, UInt16, "flags", false)
  {
  }

  lemma HeadTableRows1()
    ensures HEAD_TABLE[6] == TableRow(true, UInt16, "unitsPerEm", false)
    ensures HEAD_TABLE[7] == TableRow(false, LongDateTime, "created", false)
    ensures HEAD_TABLE[8] == TableRow(false, LongDateTime, "modified", false)
    ensures HEAD_TABLE[9] == TableRow(false, Int16, "xMin", false)
    ensures HEAD_TABLE[10] == TableRow(false, Int16, "yMin", false)
    ensures HEAD_TABLE[11] == TableRow(false, Int16, "xMax", false)
  {
  }

  lemma HeadTableRows2()
    ensures HEAD_TABLE[12] == TableRow(false, Int16, "yMax", false)
    ensures HEAD_TABLE[13] == TableRow(false, UInt16, "macStyle", false)
    ensures HEAD_TABLE[14] == TableRow(false, UInt16, "lowestRecPPEM", false)
    ensures HEAD_TABLE[15] == TableRow(false, Int16, "fontDirectionHint", false)
    ensures HEAD_TABLE[16] == TableRow(true, Int16, "indexToLocFormat", false)
    ensures HEAD_TABLE[17] == TableRow(false, Int16, "glyphDataFormat", false)
  {
  }

  lemma HheaTableRows0()
    ensures |HHEA_TABLE| == 18
    ensures HHEA_TABLE[0] == TableRow(false, UInt16, "majorVersion", false)
    ensures HHEA_TABLE[1] == TableRow(false, UInt16, "minorVersion", false)
    ensures HHEA_TABLE[2] == TableRow(true, FWord, "ascender", false)
    ensures HHEA_TABLE[3] == TableRow(true, FWord, "descender", false)
    ensures HHEA_TABLE[4] == TableRow(true, FWord, "lineGap", false)
    ensures HHEA_TABLE[5] == TableRow(false, UFWord, "advanceWidthMax", false)
  {
  }

  lemma HheaTableRows1()
    ensures HHEA_TABLE[6] == TableRow(false, FWord, "minLeftSideBearing", false)
    ensures HHEA_TABLE[7] == TableRow(false, FWord, "minRightSideBearing", false)
    ensures HHEA_TABLE[8] == TableRow(false, FWord, "xMaxExtent", false)
    ensures HHEA_TABLE[9] == TableRow(false, Int16, "caretSlopeRise", false)
    ensures HHEA_TABLE[10] == TableRow(false, Int16, "caretSlopeRun", false)
    ensures HHEA_TABLE[11] == TableRow(false, Int16, "caretOffset", false)
  {
  }

  lemma HheaTableRows2()
    ensures HHEA_TABLE[12] == TableRow(false, Int16, "reserved", false)
    ensures HHEA_TABLE[13] == TableRow(false, Int16, "reserved", false)
    ensures HHEA_TABLE[14] == TableRow(false, Int16, "reserved", false)
    ensures HHEA_TABLE[15] == TableRow(false, Int16, "reserved", false)
    ensures HHEA_TABLE[16] == TableRow(false, Int16, "metricDataFormat", false)
    ensures HHEA_TABLE[17] == TableRow(true, UInt16, "numberOfHMetrics", false)
  {
  }

  lemma HmtxMetricsRows()
    ensures |HMTX_METRICS| == 2
    ensures HMTX_METRICS[0] == TableRow(true, UInt16, "advanceWidth", false)
    ensures HMTX_METRICS[1] == TableRow(true, Int16, "lsb", false)
  {
  }

  lemma VheaTableRows0()
    ensures |VHEA_TABLE| == 17
    ensures VHEA_TABLE[0] == TableRow(false, Fixed, "version", false)
    ensures VHEA_TABLE[1] == TableRow(false, Int16, "ascender", false)
    ensures VHEA_TABLE[2] == TableRow(false, Int16, "descender", false)
    ensures VHEA_TABLE[3] == TableRow(false, Int16, "lineGap", false)
    ensures VHEA_TABLE[4] == TableRow(false, Int16, "advanceHeightMax", false)
    ensures VHEA_TABLE[5] == TableRow(false, Int16, "minTopSideBearing", false)
  {
  }

  lemma VheaTableRows1()
    ensures VHEA_TABLE[6] == TableRow(false, Int16, "minBottomSideBearing", false)
    ensures VHEA_TABLE[7] == TableRow(false, Int16, "yMaxExtent", false)
    ensures VHEA_TABLE[8] == TableRow(false, Int16, "caretSlopeRise", false)
    ensures VHEA_TABLE[9] == TableRow(false, Int16, "caretSlopeRun", false)
    ensures VHEA_TABLE[10] == TableRow(false, Int16, "caretOffset", false)
    ensures VHEA_TABLE[11] == TableRow(false, Int16, "reserved", false)
  {
  }

  lemma VheaTableRows2()
    ensures VHEA_TABLE[12] == TableRow(false, Int16, "reserved", false)
    ensures VHEA_TABLE[13] == TableRow(false, Int16, "reserved", false)
    ensures VHEA_TABLE[14] == TableRow(false, Int16, "reserved", false)
    ensures VHEA_TABLE[15] == TableRow(false, Int16, "metricDataFormat", false)
    ensures VHEA_TABLE[16] == TableRow(true, UInt16, "numOfLongVerMetrics", false)
  {
  }

  lemma VmtxMetricsRows()
    ensures |VMTX_METRICS| == 2
    ensures VMTX_METRICS[0] == TableRow(true, UInt16, "advanceHeight", false)
    ensures VMTX_METRICS[1] == TableRow(true, Int16, "topSideBearing", false)
  {
  }

  lemma NameRecordTableRows()
    ensures |NAME_RECORD_TABLE| == 6
    ensures NAME_RECORD_TABLE[0] == TableRow(true, UInt16, "platformID", false)
    ensures NAME_RECORD_TABLE[1] == TableRow(true, UInt16, "encodingID", false)
    ensures NAME_RECORD_TABLE[2] == TableRow(true, UInt16, "languageID", false)
    ensures NAME_RECORD_TABLE[3] == TableRow(true, UInt16, "nameID", false)
    ensures NAME_RECORD_TABLE[4] == TableRow(true, UInt16, "length", false)
    ensures NAME_RECORD_TABLE[5] == TableRow(true, UInt16, "offset", false)
  {
  }

  lemma CmapEncodingRecordRows()
    ensures |CMAP_ENCODING_RECORD| == 3
    ensures CMAP_ENCODING_RECORD[0] == TableRow(true, UInt16, "platformID", false)
    ensures CMAP_ENCODING_RECORD[1] == TableRow(true, UInt16, "encodingID", false)
    ensures CMAP_ENCODING_RECORD[2] == TableRow(true, Offset32, "offset", false)
  {
  }

  lemma CmapSubHeaderRecordRows()
    ensures |CMAP_SUB_HEADER_RECORD| == 4
    ensures CMAP_SUB_HEADER_RECORD[0] == TableRow(true, UInt16, "firstCode", false)
    ensures CMAP_SUB_HEADER_RECORD[1] == TableRow(true, UInt16, "entryCount", false)
    ensures CMAP_SUB_HEADER_RECORD[2] == TableRow(true, Int16, "idDelta", false)
    ensures CMAP_SUB_HEADER_RECORD[3] == TableRow(true, UInt16, "idRangeOffset", false)
  {
  }

  lemma CmapSequentialMapGroupRecordRows()
    ensures |CMAP_SEQUENTIAL_MAP_GROUP_RECORD| == 3
    ensures CMAP_SEQUENTIAL_MAP_GROUP_RECORD[0] == TableRow(true, UInt32, "startCharCode", false)
    ensures CMAP_SEQUENTIAL_MAP_GROUP_RECORD[1] == TableRow(true, UInt32, "endCharCode", false)
    ensures CMAP_SEQUENTIAL_MAP_GROUP_RECORD[2] == TableRow(true, UInt32, "startGlyphID", false)
  {
  }

  lemma CmapUnicodeRangeRecordRows()
    ensures |CMAP_UNICODE_RANGE_RECORD| == 2
    ensures CMAP_UNICODE_RANGE_RECORD[0] == TableRow(true, UInt24, "startUnicodeValue", false)
    ensures CMAP_UNICODE_RANGE_RECORD[1] == TableRow(true, UInt8, "additionalCount", false)
  {
  }

  lemma CmapUvsMappingRecordRows()
    ensures |CMAP_UVS_MAPPING_RECORD| == 2
    ensures CMAP_UVS_MAPPING_RECORD[0] == TableRow(true, UInt24, "unicodeValue", false)
    ensures CMAP_UVS_MAPPING_RECORD[1] == TableRow(true, GlyphId, "glyphID", false)
  {
  }

  lemma CmapVariationSelectorRecordRows()
    ensures |CMAP_VARIATION_SELECTOR_RECORD| == 3
    ensures CMAP_VARIATION_SELECTOR_RECORD[0] == TableRow(true, UInt24, "varSelector", false)
    ensures CMAP_VARIATION_SELECTOR_RECORD[1] == TableRow(true, OptionalOffset32, "defaultUVSOffset", false)
    ensures CMAP_VARIATION_SELECTOR_RECORD[2] == TableRow(true, OptionalOffset32, "nonDefaultUVSOffset", false)
  {
  }

  lemma MaxpTableRows()
    ensures |MAXP_TABLE| == 2
    ensures MAXP_TABLE[0] == TableRow(false, Fixed, "version", false)
    ensures MAXP_TABLE[1] == TableRow(true, UInt16, "numGlyphs", false)
  {
  }

  lemma Os2TableRows0()
    ensures |OS_2_TABLE| == 39
    ensures OS_2_TABLE[0] == TableRow(true, UInt16, "version", false)
    ensures OS_2_TABLE[1] == TableRow(false, Int16, "xAvgCharWidth", false)
    ensures OS_2_TABLE[2] == TableRow(true, UInt16, "usWeightClass", false)
    ensures OS_2_TABLE[3] == TableRow(true, UInt16, "usWidthClass", false)
    ensures OS_2_TABLE[4] == TableRow(false, UInt16, "fsType", false)
    ensures OS_2_TABLE[5] == TableRow(true, Int16, "ySubscriptXSize", false)
  {
  }

  lemma Os2TableRows1()
    ensures OS_2_TABLE[6] == TableRow(true, Int16, "ySubscriptYSize", false)
    ensures OS_2_TABLE[7] == TableRow(true, Int16, "ySubscriptXOffset", false)
    ensures OS_2_TABLE[8] == TableRow(true, Int16, "ySubscriptYOffset", false)
    ensures OS_2_TABLE[9] == TableRow(true, Int16, "ySuperscriptXSize", false)
    ensures OS_2_TABLE[10] == TableRow(true, Int16, "ySuperscriptYSize", false)
    ensures OS_2_TABLE[11] == TableRow(true, Int16, "ySuperscriptXOffset", false)
  {
  }

  lemma Os2TableRows2()
    ensures OS_2_TABLE[12] == TableRow(true, Int16, "ySuperscriptYOffset", false)
    ensures OS_2_TABLE[13] == TableRow(true, Int16, "yStrikeoutSize", false)
    ensures OS_2_TABLE[14] == TableRow(true, Int16, "yStrikeoutPosition", false)
    ensures OS_2_TABLE[15] == TableRow(false, Int16, "sFamilyClass", false)
    ensures OS_2_TABLE[16] == TableRow(false, Panose, "panose", false)
    ensures OS_2_TABLE[17] == TableRow(false, UInt32, "ulUnicodeRange1", false)
  {
  }

  lemma Os2TableRows3()
    ensures OS_2_TABLE[18] == TableRow(false, UInt32, "ulUnicodeRange2", false)
    ensures OS_2_TABLE[19] == TableRow(false, UInt32, "ulUnicodeRange3", false)
    ensures OS_2_TABLE[20] == TableRow(false, UInt32, "ulUnicodeRange4", false)
    ensures OS_2_TABLE[21] == TableRow(false, Tag, "achVendID", false)
    ensures OS_2_TABLE[22] == TableRow(true, UInt16, "fsSelection", false)
    ensures OS_2_TABLE[23] == TableRow(false, UInt16, "usFirstCharIndex", false)
  {
  }

  lemma Os2TableRows4()
    ensures OS_2_TABLE[24] == TableRow(false, UInt16, "usLastCharIndex", false)
    ensures OS_2_TABLE[25] == TableRow(false, Int16, "sTypoAscender", false)
    ensures OS_2_TABLE[26] == TableRow(false, Int16, "sTypoDescender", false)
    ensures OS_2_TABLE[27] == TableRow(false, Int16, "sTypoLineGap", false)
    ensures OS_2_TABLE[28] == TableRow(false, UInt16, "usWinAscent", false)
    ensures OS_2_TABLE[29] == TableRow(false, UInt16, "usWinDescent", false)
  {
  }

  lemma Os2TableRows5()
    ensures OS_2_TABLE[30] == TableRow(false, UInt32, "ulCodePageRange1", true)
    ensures OS_2_TABLE[31] == TableRow(false, UInt32, "ulCodePageRange2", true)
    ensures OS_2_TABLE[32] == TableRow(false, Int16, "sxHeight", true)
    ensures OS_2_TABLE[33] == TableRow(false, Int16, "sCapHeight", true)
    ensures OS_2_TABLE[34] == TableRow(false, UInt16, "usDefaultChar", true)
    ensures OS_2_TABLE[35] == TableRow(false, UInt16, "usBreakChar", true)
  {
  }

  lemma Os2TableRows6()
    ensures OS_2_TABLE[36] == TableRow(false, UInt16, "usMaxContext", true)
    ensures OS_2_TABLE[37] == TableRow(false, UInt16, "usLowerOpticalPointSize", true)
    ensures OS_2_TABLE[38] == TableRow(false, UInt16, "usUpperOpticalPointSize", true)
  {
  }

  lemma GdefTableRows0()
    ensures |GDEF_TABLE| == 8
    ensures GDEF_TABLE[0] == TableRow(true, UInt16, "majorVersion", false)
    ensures GDEF_TABLE[1] == TableRow(true, UInt16, "minorVersion", false)
    ensures GDEF_TABLE[2] == TableRow(true, OptionalOffset16, "glyphClassDefOffset", false)
    ensures GDEF_TABLE[3] == TableRow(false, OptionalOffset16, "attachListOffset", false)
    ensures GDEF_TABLE[4] == TableRow(false, OptionalOffset16, "ligCaretListOffset", false)
    ensures GDEF_TABLE[5] == TableRow(true, OptionalOffset16, "markAttachClassDefOffset", false)
  {
  }

  lemma GdefTableRows1()
    ensures GDEF_TABLE[6] == TableRow(false, OptionalOffset16, "markGlyphSetsDefOffset", true)
    ensures GDEF_TABLE[7] == TableRow(false, OptionalOffset32, "itemVarStoreOffset", true)
  {
  }

  lemma GdefClassRangeRecordRows()
    ensures |GDEF_CLASS_RANGE_RECORD| == 2
    ensures GDEF_CLASS_RANGE_RECORD[0] == TableRow(true, GlyphIdRangeInclusive, "range", false)
    ensures GDEF_CLASS_RANGE_RECORD[1] == TableRow(true, UInt16, "class", false)
  {
  }

  lemma GdefRangeRecordRows()
    ensures |GDEF_RANGE_RECORD| == 2
    ensures GDEF_RANGE_RECORD[0] == TableRow(true, GlyphIdRangeInclusive, "range", false)
    ensures GDEF_RANGE_RECORD[1] == TableRow(false, UInt16, "startCoverageIndex", false)
  {
  }

  // ---------------------------------------------------------------------
  // Sizes: the layout functions evaluated on the catalogue
  // ---------------------------------------------------------------------

  /** `TTC_HEADER` has no optional row; its 4 rows take 12 bytes. */
  lemma TtcHeaderLayout()
    ensures PrefixLen(TTC_HEADER) == 4
    ensures StructSize(TTC_HEADER) == 12
    ensures EnabledSupportedTo(TTC_HEADER, 4)
  {
    TtcHeaderRows();
    assert FirstOptionalFrom(TTC_HEADER, 3) == 4;
    assert FirstOptionalFrom(TTC_HEADER, 2) == 4;
    assert FirstOptionalFrom(TTC_HEADER, 1) == 4;
    assert SumTo(TTC_HEADER, 1) == 4;
    assert SumTo(TTC_HEADER, 2) == 6;
    assert SumTo(TTC_HEADER, 3) == 8;
    assert EnabledSupportedTo(TTC_HEADER, 0);
    assert EnabledSupportedTo(TTC_HEADER, 1);
    assert EnabledSupportedTo(TTC_HEADER, 2);
    assert EnabledSupportedTo(TTC_HEADER, 3);
  }

  /** `TABLE_RECORD` has no optional row; its 4 rows take 16 bytes. */
  lemma TableRecordLayout()
    ensures PrefixLen(TABLE_RECORD) == 4
    ensures StructSize(TABLE_RECORD) == 16
    ensures EnabledSupportedTo(TABLE_RECORD, 4)
  {
    TableRecordRows();
    assert FirstOptionalFrom(TABLE_RECORD, 3) == 4;
    assert FirstOptionalFrom(TABLE_RECORD, 2) == 4;
    assert FirstOptionalFrom(TABLE_RECORD, 1) == 4;
    assert SumTo(TABLE_RECORD, 1) == 4;
    assert SumTo(TABLE_RECORD, 2) == 8;
    assert SumTo(TABLE_RECORD, 3) == 12;
    assert EnabledSupportedTo(TABLE_RECORD, 0);
    assert EnabledSupportedTo(TABLE_RECORD, 1);
    assert EnabledSupportedTo(TABLE_RECORD, 2);
    assert EnabledSupportedTo(TABLE_RECORD, 3);
  }

  /** `HEAD_TABLE` has no optional row; its 18 rows take 54 bytes. */
  lemma HeadTableLayout()
    ensures PrefixLen(HEAD_TABLE) == 18
    ensures StructSize(HEAD_TABLE) == 54
    ensures EnabledSupportedTo(HEAD_TABLE, 18)
  {
    HeadTablePrefix();
    HeadTableWidths();
    HeadTableSupported();
  }

  lemma HeadTablePrefixFrom12()
    ensures FirstOptionalFrom(HEAD_TABLE, 12) == 18
  {
    HeadTableRows0();
    HeadTableRows2();
    assert FirstOptionalFrom(HEAD_TABLE, 17) == 18;
    assert FirstOptionalFrom(HEAD_TABLE, 16) == 18;
    assert FirstOptionalFrom(HEAD_TABLE, 15) == 18;
    assert FirstOptionalFrom(HEAD_TABLE, 14) == 18;
    assert FirstOptionalFrom(HEAD_TABLE, 13) == 18;
  }

  lemma HeadTablePrefix()
    ensures PrefixLen(HEAD_TABLE) == 18
  {
    HeadTablePrefixFrom12();
    HeadTableRows0();
    HeadTableRows1();
    HeadTableRows2();
    assert FirstOptionalFrom(HEAD_TABLE, 11) == 18;
    assert FirstOptionalFrom(HEAD_TABLE, 10) == 18;
    assert FirstOptionalFrom(HEAD_TABLE, 9) == 18;
    assert FirstOptionalFrom(HEAD_TABLE, 8) == 18;
    assert FirstOptionalFrom(HEAD_TABLE, 7) == 18;
    assert FirstOptionalFrom(HEAD_TABLE, 6) == 18;
    assert FirstOptionalFrom(HEAD_TABLE, 5) == 18;
    assert FirstOptionalFrom(HEAD_TABLE, 4) == 18;
    assert FirstOptionalFrom(HEAD_TABLE, 3) == 18;
    assert FirstOptionalFrom(HEAD_TABLE, 2) == 18;
    assert FirstOptionalFrom(HEAD_TABLE, 1) == 18;
  }

  lemma HeadTableWidths12()
    ensures SumTo(HEAD_TABLE, 12) == 42
  {
    HeadTableRows0();
    HeadTableRows1();
    assert SumTo(HEAD_TABLE, 1) == 2;
    assert SumTo(HEAD_TABLE, 2) == 4;
    assert SumTo(HEAD_TABLE, 3) == 8;
    assert SumTo(HEAD_TABLE, 4) == 12;
    assert SumTo(HEAD_TABLE, 5) == 16;
    assert SumTo(HEAD_TABLE, 6) == 18;
    assert SumTo(HEAD_TABLE, 7) == 20;
    assert SumTo(HEAD_TABLE, 8) == 28;
    assert SumTo(HEAD_TABLE, 9) == 36;
    assert SumTo(HEAD_TABLE, 10) == 38;
    assert SumTo(HEAD_TABLE, 11) == 40;
  }

  lemma HeadTableWidths()
    ensures SumTo(HEAD_TABLE, 18) == 54
  {
    HeadTableWidths12();
    HeadTableRows0();
    HeadTableRows2();
    assert SumTo(HEAD_TABLE, 13) == 44;
    assert SumTo(HEAD_TABLE, 14) == 46;
    assert SumTo(HEAD_TABLE, 15) == 48;
    assert SumTo(HEAD_TABLE, 16) == 50;
    assert SumTo(HEAD_TABLE, 17) == 52;
  }

  lemma HeadTableSupported12()
    ensures EnabledSupportedTo(HEAD_TABLE, 12)
  {
    HeadTableRows0();
    HeadTableRows1();
    assert EnabledSupportedTo(HEAD_TABLE, 0);
    assert EnabledSupportedTo(HEAD_TABLE, 1);
    assert EnabledSupportedTo(HEAD_TABLE, 2);
    assert EnabledSupportedTo(HEAD_TABLE, 3);
    assert EnabledSupportedTo(HEAD_TABLE, 4);
    assert EnabledSupportedTo(HEAD_TABLE, 5);
    assert EnabledSupportedTo(HEAD_TABLE, 6);
    assert EnabledSupportedTo(HEAD_TABLE, 7);
    assert EnabledSupportedTo(HEAD_TABLE, 8);
    assert EnabledSupportedTo(HEAD_TABLE, 9);
    assert EnabledSupportedTo(HEAD_TABLE, 10);
    assert EnabledSupportedTo(HEAD_TABLE, 11);
  }

  lemma HeadTableSupported()
    ensures EnabledSupportedTo(HEAD_TABLE, 18)
  {
    HeadTableSupported12();
    HeadTableRows0();
    HeadTableRows2();
    assert EnabledSupportedTo(HEAD_TABLE, 12);
    assert EnabledSupportedTo(HEAD_TABLE, 13);
    assert EnabledSupportedTo(HEAD_TABLE, 14);
    assert EnabledSupportedTo(HEAD_TABLE, 15);
    assert EnabledSupportedTo(HEAD_TABLE, 16);
    assert EnabledSupportedTo(HEAD_TABLE, 17);
  }

  /** `HHEA_TABLE` has no optional row; its 18 rows take 36 bytes. */
  lemma HheaTableLayout()
    ensures PrefixLen(HHEA_TABLE) == 18
    ensures StructSize(HHEA_TABLE) == 36
    ensures EnabledSupportedTo(HHEA_TABLE, 18)
  {
    HheaTablePrefix();
    HheaTableWidths();
    HheaTableSupported();
  }

  lemma HheaTablePrefixFrom12()
    ensures FirstOptionalFrom(HHEA_TABLE, 12) == 18
  {
    HheaTableRows0();
    HheaTableRows2();
    assert FirstOptionalFrom(HHEA_TABLE, 17) == 18;
    assert FirstOptionalFrom(HHEA_TABLE, 16) == 18;
    assert FirstOptionalFrom(HHEA_TABLE, 15) == 18;
    assert FirstOptionalFrom(HHEA_TABLE, 14) == 18;
    assert FirstOptionalFrom(HHEA_TABLE, 13) == 18;
  }

  lemma HheaTablePrefix()
    ensures PrefixLen(HHEA_TABLE) == 18
  {
    HheaTablePrefixFrom12();
    HheaTableRows0();
    HheaTableRows1();
    HheaTableRows2();
    assert FirstOptionalFrom(HHEA_TABLE, 11) == 18;
    assert FirstOptionalFrom(HHEA_TABLE, 10) == 18;
    assert FirstOptionalFrom(HHEA_TABLE, 9) == 18;
    assert FirstOptionalFrom(HHEA_TABLE, 8) == 18;
    assert FirstOptionalFrom(HHEA_TABLE, 7) == 18;
    assert FirstOptionalFrom(HHEA_TABLE, 6) == 18;
    assert FirstOptionalFrom(HHEA_TABLE, 5) == 18;
    assert FirstOptionalFrom(HHEA_TABLE, 4) == 18;
    assert FirstOptionalFrom(HHEA_TABLE, 3) == 18;
    assert FirstOptionalFrom(HHEA_TABLE, 2) == 18;
    assert FirstOptionalFrom(HHEA_TABLE, 1) == 18;
  }

  lemma HheaTableWidths12()
    ensures SumTo(HHEA_TABLE, 12) == 24
  {
    HheaTableRows0();
    HheaTableRows1();
    assert SumTo(HHEA_TABLE, 1) == 2;
    assert SumTo(HHEA_TABLE, 2) == 4;
    assert SumTo(HHEA_TABLE, 3) == 6;
    assert SumTo(HHEA_TABLE, 4) == 8;
    assert SumTo(HHEA_TABLE, 5) == 10;
    assert SumTo(HHEA_TABLE, 6) == 12;
    assert SumTo(HHEA_TABLE, 7) == 14;
    assert SumTo(HHEA_TABLE, 8) == 16;
    assert SumTo(HHEA_TABLE, 9) == 18;
    assert SumTo(HHEA_TABLE, 10) == 20;
    assert SumTo(HHEA_TABLE, 11) == 22;
  }

  lemma HheaTableWidths()
    ensures SumTo(HHEA_TABLE, 18) == 36
  {
    HheaTableWidths12();
    HheaTableRows0();
    HheaTableRows2();
    assert SumTo(HHEA_TABLE, 13) == 26;
    assert SumTo(HHEA_TABLE, 14) == 28;
    assert SumTo(HHEA_TABLE, 15) == 30;
    assert SumTo(HHEA_TABLE, 16) == 32;
    assert SumTo(HHEA_TABLE, 17) == 34;
  }

  lemma HheaTableSupported12()
    ensures EnabledSupportedTo(HHEA_TABLE, 12)
  {
    HheaTableRows0();
    HheaTableRows1();
    assert EnabledSupportedTo(HHEA_TABLE, 0);
    assert EnabledSupportedTo(HHEA_TABLE, 1);
    assert EnabledSupportedTo(HHEA_TABLE, 2);
    assert EnabledSupportedTo(HHEA_TABLE, 3);
    assert EnabledSupportedTo(HHEA_TABLE, 4);
    assert EnabledSupportedTo(HHEA_TABLE, 5);
    assert EnabledSupportedTo(HHEA_TABLE, 6);
    assert EnabledSupportedTo(HHEA_TABLE, 7);
    assert EnabledSupportedTo(HHEA_TABLE, 8);
    assert EnabledSupportedTo(HHEA_TABLE, 9);
    assert EnabledSupportedTo(HHEA_TABLE, 10);
    assert EnabledSupportedTo(HHEA_TABLE, 11);
  }

  lemma HheaTableSupported()
    ensures EnabledSupportedTo(HHEA_TABLE, 18)
  {
    HheaTableSupported12();
    HheaTableRows0();
    HheaTableRows2();
    assert EnabledSupportedTo(HHEA_TABLE, 12);
    assert EnabledSupportedTo(HHEA_TABLE, 13);
    assert EnabledSupportedTo(HHEA_TABLE, 14);
    assert EnabledSupportedTo(HHEA_TABLE, 15);
    assert EnabledSupportedTo(HHEA_TABLE, 16);
    assert EnabledSupportedTo(HHEA_TABLE, 17);
  }

  /** `HMTX_METRICS` has no optional row; its 2 rows take 4 bytes. */
  lemma HmtxMetricsLayout()
    ensures PrefixLen(HMTX_METRICS) == 2
    ensures StructSize(HMTX_METRICS) == 4
    ensures EnabledSupportedTo(HMTX_METRICS, 2)
  {
    HmtxMetricsRows();
    assert FirstOptionalFrom(HMTX_METRICS, 1) == 2;
    assert SumTo(HMTX_METRICS, 1) == 2;
    assert EnabledSupportedTo(HMTX_METRICS, 0);
    assert EnabledSupportedTo(HMTX_METRICS, 1);
  }

  /** `VHEA_TABLE` has no optional row; its 17 rows take 36 bytes. */
  lemma VheaTableLayout()
    ensures PrefixLen(VHEA_TABLE) == 17
    ensures StructSize(VHEA_TABLE) == 36
    ensures EnabledSupportedTo(VHEA_TABLE, 17)
  {
    VheaTablePrefix();
    VheaTableWidths();
    VheaTableSupported();
  }

  lemma VheaTablePrefixFrom12()
    ensures FirstOptionalFrom(VHEA_TABLE, 12) == 17
  {
    VheaTableRows0();
    VheaTableRows2();
    assert FirstOptionalFrom(VHEA_TABLE, 16) == 17;
    assert FirstOptionalFrom(VHEA_TABLE, 15) == 17;
    assert FirstOptionalFrom(VHEA_TABLE, 14) == 17;
    assert FirstOptionalFrom(VHEA_TABLE, 13) == 17;
  }

  lemma VheaTablePrefix()
    ensures PrefixLen(VHEA_TABLE) == 17
  {
    VheaTablePrefixFrom12();
    VheaTableRows0();
    VheaTableRows1();
    VheaTableRows2();
    assert FirstOptionalFrom(VHEA_TABLE, 11) == 17;
    assert FirstOptionalFrom(VHEA_TABLE, 10) == 17;
    assert FirstOptionalFrom(VHEA_TABLE, 9) == 17;
    assert FirstOptionalFrom(VHEA_TABLE, 8) == 17;
    assert FirstOptionalFrom(VHEA_TABLE, 7) == 17;
    assert FirstOptionalFrom(VHEA_TABLE, 6) == 17;
    assert FirstOptionalFrom(VHEA_TABLE, 5) == 17;
    assert FirstOptionalFrom(VHEA_TABLE, 4) == 17;
    assert FirstOptionalFrom(VHEA_TABLE, 3) == 17;
    assert FirstOptionalFrom(VHEA_TABLE, 2) == 17;
    assert FirstOptionalFrom(VHEA_TABLE, 1) == 17;
  }

  lemma VheaTableWidths12()
    ensures SumTo(VHEA_TABLE, 12) == 26
  {
    VheaTableRows0();
    VheaTableRows1();
    assert SumTo(VHEA_TABLE, 1) == 4;
    assert SumTo(VHEA_TABLE, 2) == 6;
    assert SumTo(VHEA_TABLE, 3) == 8;
    assert SumTo(VHEA_TABLE, 4) == 10;
    assert SumTo(VHEA_TABLE, 5) == 12;
    assert SumTo(VHEA_TABLE, 6) == 14;
    assert SumTo(VHEA_TABLE, 7) == 16;
    assert SumTo(VHEA_TABLE, 8) == 18;
    assert SumTo(VHEA_TABLE, 9) == 20;
    assert SumTo(VHEA_TABLE, 10) == 22;
    assert SumTo(VHEA_TABLE, 11) == 24;
  }

  lemma VheaTableWidths()
    ensures SumTo(VHEA_TABLE, 17) == 36
  {
    VheaTableWidths12();
    VheaTableRows0();
    VheaTableRows2();
    assert SumTo(VHEA_TABLE, 13) == 28;
    assert SumTo(VHEA_TABLE, 14) == 30;
    assert SumTo(VHEA_TABLE, 15) == 32;
    assert SumTo(VHEA_TABLE, 16) == 34;
  }

  lemma VheaTableSupported12()
    ensures EnabledSupportedTo(VHEA_TABLE, 12)
  {
    VheaTableRows0();
    VheaTableRows1();
    assert EnabledSupportedTo(VHEA_TABLE, 0);
    assert EnabledSupportedTo(VHEA_TABLE, 1);
    assert EnabledSupportedTo(VHEA_TABLE, 2);
    assert EnabledSupportedTo(VHEA_TABLE, 3);
    assert EnabledSupportedTo(VHEA_TABLE, 4);
    assert EnabledSupportedTo(VHEA_TABLE, 5);
    assert EnabledSupportedTo(VHEA_TABLE, 6);
    assert EnabledSupportedTo(VHEA_TABLE, 7);
    assert EnabledSupportedTo(VHEA_TABLE, 8);
    assert EnabledSupportedTo(VHEA_TABLE, 9);
    assert EnabledSupportedTo(VHEA_TABLE, 10);
    assert EnabledSupportedTo(VHEA_TABLE, 11);
  }

  lemma VheaTableSupported()
    ensures EnabledSupportedTo(VHEA_TABLE, 17)
  {
    VheaTableSupported12();
    VheaTableRows0();
    VheaTableRows2();
    assert EnabledSupportedTo(VHEA_TABLE, 12);
    assert EnabledSupportedTo(VHEA_TABLE, 13);
    assert EnabledSupportedTo(VHEA_TABLE, 14);
    assert EnabledSupportedTo(VHEA_TABLE, 15);
    assert EnabledSupportedTo(VHEA_TABLE, 16);
  }

  /** `VMTX_METRICS` has no optional row; its 2 rows take 4 bytes. */
  lemma VmtxMetricsLayout()
    ensures PrefixLen(VMTX_METRICS) == 2
    ensures StructSize(VMTX_METRICS) == 4
    ensures EnabledSupportedTo(VMTX_METRICS, 2)
  {
    VmtxMetricsRows();
    assert FirstOptionalFrom(VMTX_METRICS, 1) == 2;
    assert SumTo(VMTX_METRICS, 1) == 2;
    assert EnabledSupportedTo(VMTX_METRICS, 0);
    assert EnabledSupportedTo(VMTX_METRICS, 1);
  }

  /** `NAME_RECORD_TABLE` has no optional row; its 6 rows take 12 bytes. */
  lemma NameRecordTableLayout()
    ensures PrefixLen(NAME_RECORD_TABLE) == 6
    ensures StructSize(NAME_RECORD_TABLE) == 12
    ensures EnabledSupportedTo(NAME_RECORD_TABLE, 6)
  {
    NameRecordTableRows();
    assert FirstOptionalFrom(NAME_RECORD_TABLE, 5) == 6;
    assert FirstOptionalFrom(NAME_RECORD_TABLE, 4) == 6;
    assert FirstOptionalFrom(NAME_RECORD_TABLE, 3) == 6;
    assert FirstOptionalFrom(NAME_RECORD_TABLE, 2) == 6;
    assert FirstOptionalFrom(NAME_RECORD_TABLE, 1) == 6;
    assert SumTo(NAME_RECORD_TABLE, 1) == 2;
    assert SumTo(NAME_RECORD_TABLE, 2) == 4;
    assert SumTo(NAME_RECORD_TABLE, 3) == 6;
    assert SumTo(NAME_RECORD_TABLE, 4) == 8;
    assert SumTo(NAME_RECORD_TABLE, 5) == 10;
    assert EnabledSupportedTo(NAME_RECORD_TABLE, 0);
    assert EnabledSupportedTo(NAME_RECORD_TABLE, 1);
    assert EnabledSupportedTo(NAME_RECORD_TABLE, 2);
    assert EnabledSupportedTo(NAME_RECORD_TABLE, 3);
    assert EnabledSupportedTo(NAME_RECORD_TABLE, 4);
    assert EnabledSupportedTo(NAME_RECORD_TABLE, 5);
  }

  /** `CMAP_ENCODING_RECORD` has no optional row; its 3 rows take 8 bytes. */
  lemma CmapEncodingRecordLayout()
    ensures PrefixLen(CMAP_ENCODING_RECORD) == 3
    ensures StructSize(CMAP_ENCODING_RECORD) == 8
    ensures EnabledSupportedTo(CMAP_ENCODING_RECORD, 3)
  {
    CmapEncodingRecordRows();
    assert FirstOptionalFrom(CMAP_ENCODING_RECORD, 2) == 3;
    assert FirstOptionalFrom(CMAP_ENCODING_RECORD, 1) == 3;
    assert SumTo(CMAP_ENCODING_RECORD, 1) == 2;
    assert SumTo(CMAP_ENCODING_RECORD, 2) == 4;
    assert EnabledSupportedTo(CMAP_ENCODING_RECORD, 0);
    assert EnabledSupportedTo(CMAP_ENCODING_RECORD, 1);
    assert EnabledSupportedTo(CMAP_ENCODING_RECORD, 2);
  }

  /** `CMAP_SUB_HEADER_RECORD` has no optional row; its 4 rows take 8 bytes. */
  lemma CmapSubHeaderRecordLayout()
    ensures PrefixLen(CMAP_SUB_HEADER_RECORD) == 4
    ensures StructSize(CMAP_SUB_HEADER_RECORD) == 8
    ensures EnabledSupportedTo(CMAP_SUB_HEADER_RECORD, 4)
  {
    CmapSubHeaderRecordRows();
    assert FirstOptionalFrom(CMAP_SUB_HEADER_RECORD, 3) == 4;
    assert FirstOptionalFrom(CMAP_SUB_HEADER_RECORD, 2) == 4;
    assert FirstOptionalFrom(CMAP_SUB_HEADER_RECORD, 1) == 4;
    assert SumTo(CMAP_SUB_HEADER_RECORD, 1) == 2;
    assert SumTo(CMAP_SUB_HEADER_RECORD, 2) == 4;
    assert SumTo(CMAP_SUB_HEADER_RECORD, 3) == 6;
    assert EnabledSupportedTo(CMAP_SUB_HEADER_RECORD, 0);
    assert EnabledSupportedTo(CMAP_SUB_HEADER_RECORD, 1);
    assert EnabledSupportedTo(CMAP_SUB_HEADER_RECORD, 2);
    assert EnabledSupportedTo(CMAP_SUB_HEADER_RECORD, 3);
  }

  /** `CMAP_SEQUENTIAL_MAP_GROUP_RECORD` has no optional row; its 3 rows take 12 bytes. */
  lemma CmapSequentialMapGroupRecordLayout()
    ensures PrefixLen(CMAP_SEQUENTIAL_MAP_GROUP_RECORD) == 3
    ensures StructSize(CMAP_SEQUENTIAL_MAP_GROUP_RECORD) == 12
    ensures EnabledSupportedTo(CMAP_SEQUENTIAL_MAP_GROUP_RECORD, 3)
  {
    CmapSequentialMapGroupRecordRows();
    assert FirstOptionalFrom(CMAP_SEQUENTIAL_MAP_GROUP_RECORD, 2) == 3;
    assert FirstOptionalFrom(CMAP_SEQUENTIAL_MAP_GROUP_RECORD, 1) == 3;
    assert SumTo(CMAP_SEQUENTIAL_MAP_GROUP_RECORD, 1) == 4;
    assert SumTo(CMAP_SEQUENTIAL_MAP_GROUP_RECORD, 2) == 8;
    assert EnabledSupportedTo(CMAP_SEQUENTIAL_MAP_GROUP_RECORD, 0);
    assert EnabledSupportedTo(CMAP_SEQUENTIAL_MAP_GROUP_RECORD, 1);
    assert EnabledSupportedTo(CMAP_SEQUENTIAL_MAP_GROUP_RECORD, 2);
  }

  /** `CMAP_UNICODE_RANGE_RECORD` has no optional row; its 2 rows take 4 bytes. */
  lemma CmapUnicodeRangeRecordLayout()
    ensures PrefixLen(CMAP_UNICODE_RANGE_RECORD) == 2
    ensures StructSize(CMAP_UNICODE_RANGE_RECORD) == 4
    ensures EnabledSupportedTo(CMAP_UNICODE_RANGE_RECORD, 2)
  {
    CmapUnicodeRangeRecordRows();
    assert FirstOptionalFrom(CMAP_UNICODE_RANGE_RECORD, 1) == 2;
    assert SumTo(CMAP_UNICODE_RANGE_RECORD, 1) == 3;
    assert EnabledSupportedTo(CMAP_UNICODE_RANGE_RECORD, 0);
    assert EnabledSupportedTo(CMAP_UNICODE_RANGE_RECORD, 1);
  }

  /** `CMAP_UVS_MAPPING_RECORD` has no optional row; its 2 rows take 5 bytes. */
  lemma CmapUvsMappingRecordLayout()
    ensures PrefixLen(CMAP_UVS_MAPPING_RECORD) == 2
    ensures StructSize(CMAP_UVS_MAPPING_RECORD) == 5
    ensures EnabledSupportedTo(CMAP_UVS_MAPPING_RECORD, 2)
  {
    CmapUvsMappingRecordRows();
    assert FirstOptionalFrom(CMAP_UVS_MAPPING_RECORD, 1) == 2;
    assert SumTo(CMAP_UVS_MAPPING_RECORD, 1) == 3;
    assert EnabledSupportedTo(CMAP_UVS_MAPPING_RECORD, 0);
    assert EnabledSupportedTo(CMAP_UVS_MAPPING_RECORD, 1);
  }

  /** `CMAP_VARIATION_SELECTOR_RECORD` has no optional row; its 3 rows take 11 bytes. */
  lemma CmapVariationSelectorRecordLayout()
    ensures PrefixLen(CMAP_VARIATION_SELECTOR_RECORD) == 3
    ensures StructSize(CMAP_VARIATION_SELECTOR_RECORD) == 11
    ensures EnabledSupportedTo(CMAP_VARIATION_SELECTOR_RECORD, 3)
  {
    CmapVariationSelectorRecordRows();
    assert FirstOptionalFrom(CMAP_VARIATION_SELECTOR_RECORD, 2) == 3;
    assert FirstOptionalFrom(CMAP_VARIATION_SELECTOR_RECORD, 1) == 3;
    assert SumTo(CMAP_VARIATION_SELECTOR_RECORD, 1) == 3;
    assert SumTo(CMAP_VARIATION_SELECTOR_RECORD, 2) == 7;
    assert EnabledSupportedTo(CMAP_VARIATION_SELECTOR_RECORD, 0);
    assert EnabledSupportedTo(CMAP_VARIATION_SELECTOR_RECORD, 1);
    assert EnabledSupportedTo(CMAP_VARIATION_SELECTOR_RECORD, 2);
  }

  /** `MAXP_TABLE` has no optional row; its 2 rows take 6 bytes. */
  lemma MaxpTableLayout()
    ensures PrefixLen(MAXP_TABLE) == 2
    ensures StructSize(MAXP_TABLE) == 6
    ensures EnabledSupportedTo(MAXP_TABLE, 2)
  {
    MaxpTableRows();
    assert FirstOptionalFrom(MAXP_TABLE, 1) == 2;
    assert SumTo(MAXP_TABLE, 1) == 4;
    assert EnabledSupportedTo(MAXP_TABLE, 0);
    assert EnabledSupportedTo(MAXP_TABLE, 1);
  }

  /** The first optional row of `OS_2_TABLE` is row 30; the 30 rows before it take 78 bytes. */
  lemma Os2TableLayout()
    ensures PrefixLen(OS_2_TABLE) == 30
    ensures StructSize(OS_2_TABLE) == 78
    ensures EnabledSupportedTo(OS_2_TABLE, 30)
  {
    Os2TablePrefix();
    Os2TableWidths();
    Os2TableSupported();
  }

  lemma Os2TablePrefixFrom24()
    ensures FirstOptionalFrom(OS_2_TABLE, 24) == 30
  {
    Os2TableRows0();
    Os2TableRows4();
    Os2TableRows5();
    assert FirstOptionalFrom(OS_2_TABLE, 29) == 30;
    assert FirstOptionalFrom(OS_2_TABLE, 28) == 30;
    assert FirstOptionalFrom(OS_2_TABLE, 27) == 30;
    assert FirstOptionalFrom(OS_2_TABLE, 26) == 30;
    assert FirstOptionalFrom(OS_2_TABLE, 25) == 30;
  }

  lemma Os2TablePrefixFrom12()
    ensures FirstOptionalFrom(OS_2_TABLE, 12) == 30
  {
    Os2TablePrefixFrom24();
    Os2TableRows0();
    Os2TableRows2();
    Os2TableRows3();
    Os2TableRows4();
    assert FirstOptionalFrom(OS_2_TABLE, 23) == 30;
    assert FirstOptionalFrom(OS_2_TABLE, 22) == 30;
    assert FirstOptionalFrom(OS_2_TABLE, 21) == 30;
    assert FirstOptionalFrom(OS_2_TABLE, 20) == 30;
    assert FirstOptionalFrom(OS_2_TABLE, 19) == 30;
    assert FirstOptionalFrom(OS_2_TABLE, 18) == 30;
    assert FirstOptionalFrom(OS_2_TABLE, 17) == 30;
    assert FirstOptionalFrom(OS_2_TABLE, 16) == 30;
    assert FirstOptionalFrom(OS_2_TABLE, 15) == 30;
    assert FirstOptionalFrom(OS_2_TABLE, 14) == 30;
    assert FirstOptionalFrom(OS_2_TABLE, 13) == 30;
  }

  lemma Os2TablePrefix()
    ensures PrefixLen(OS_2_TABLE) == 30
  {
    Os2TablePrefixFrom12();
    Os2TableRows0();
    Os2TableRows1();
    Os2TableRows2();
    assert FirstOptionalFrom(OS_2_TABLE, 11) == 30;
    assert FirstOptionalFrom(OS_2_TABLE, 10) == 30;
    assert FirstOptionalFrom(OS_2_TABLE, 9) == 30;
    assert FirstOptionalFrom(OS_2_TABLE, 8) == 30;
    assert FirstOptionalFrom(OS_2_TABLE, 7) == 30;
    assert FirstOptionalFrom(OS_2_TABLE, 6) == 30;
    assert FirstOptionalFrom(OS_2_TABLE, 5) == 30;
    assert FirstOptionalFrom(OS_2_TABLE, 4) == 30;
    assert FirstOptionalFrom(OS_2_TABLE, 3) == 30;
    assert FirstOptionalFrom(OS_2_TABLE, 2) == 30;
    assert FirstOptionalFrom(OS_2_TABLE, 1) == 30;
  }

  lemma Os2TableWidths12()
    ensures SumTo(OS_2_TABLE, 12) == 24
  {
    Os2TableRows0();
    Os2TableRows1();
    assert SumTo(OS_2_TABLE, 1) == 2;
    assert SumTo(OS_2_TABLE, 2) == 4;
    assert SumTo(OS_2_TABLE, 3) == 6;
    assert SumTo(OS_2_TABLE, 4) == 8;
    assert SumTo(OS_2_TABLE, 5) == 10;
    assert SumTo(OS_2_TABLE, 6) == 12;
    assert SumTo(OS_2_TABLE, 7) == 14;
    assert SumTo(OS_2_TABLE, 8) == 16;
    assert SumTo(OS_2_TABLE, 9) == 18;
    assert SumTo(OS_2_TABLE, 10) == 20;
    assert SumTo(OS_2_TABLE, 11) == 22;
  }

  lemma Os2TableWidths24()
    ensures SumTo(OS_2_TABLE, 24) == 66
  {
    Os2TableWidths12();
    Os2TableRows0();
    Os2TableRows2();
    Os2TableRows3();
    assert SumTo(OS_2_TABLE, 13) == 26;
    assert SumTo(OS_2_TABLE, 14) == 28;
    assert SumTo(OS_2_TABLE, 15) == 30;
    assert SumTo(OS_2_TABLE, 16) == 32;
    assert SumTo(OS_2_TABLE, 17) == 42;
    assert SumTo(OS_2_TABLE, 18) == 46;
    assert SumTo(OS_2_TABLE, 19) == 50;
    assert SumTo(OS_2_TABLE, 20) == 54;
    assert SumTo(OS_2_TABLE, 21) == 58;
    assert SumTo(OS_2_TABLE, 22) == 62;
    assert SumTo(OS_2_TABLE, 23) == 64;
  }

  lemma Os2TableWidths()
    ensures SumTo(OS_2_TABLE, 30) == 78
  {
    Os2TableWidths24();
    Os2TableRows0();
    Os2TableRows4();
    assert SumTo(OS_2_TABLE, 25) == 68;
    assert SumTo(OS_2_TABLE, 26) == 70;
    assert SumTo(OS_2_TABLE, 27) == 72;
    assert SumTo(OS_2_TABLE, 28) == 74;
    assert SumTo(OS_2_TABLE, 29) == 76;
  }

  lemma Os2TableSupported12()
    ensures EnabledSupportedTo(OS_2_TABLE, 12)
  {
    Os2TableRows0();
    Os2TableRows1();
    assert EnabledSupportedTo(OS_2_TABLE, 0);
    assert EnabledSupportedTo(OS_2_TABLE, 1);
    assert EnabledSupportedTo(OS_2_TABLE, 2);
    assert EnabledSupportedTo(OS_2_TABLE, 3);
    assert EnabledSupportedTo(OS_2_TABLE, 4);
    assert EnabledSupportedTo(OS_2_TABLE, 5);
    assert EnabledSupportedTo(OS_2_TABLE, 6);
    assert EnabledSupportedTo(OS_2_TABLE, 7);
    assert EnabledSupportedTo(OS_2_TABLE, 8);
    assert EnabledSupportedTo(OS_2_TABLE, 9);
    assert EnabledSupportedTo(OS_2_TABLE, 10);
    assert EnabledSupportedTo(OS_2_TABLE, 11);
  }

  lemma Os2TableSupported24()
    ensures EnabledSupportedTo(OS_2_TABLE, 24)
  {
    Os2TableSupported12();
    Os2TableRows0();
    Os2TableRows2();
    Os2TableRows3();
    assert EnabledSupportedTo(OS_2_TABLE, 12);
    assert EnabledSupportedTo(OS_2_TABLE, 13);
    assert EnabledSupportedTo(OS_2_TABLE, 14);
    assert EnabledSupportedTo(OS_2_TABLE, 15);
    assert EnabledSupportedTo(OS_2_TABLE, 16);
    assert EnabledSupportedTo(OS_2_TABLE, 17);
    assert EnabledSupportedTo(OS_2_TABLE, 18);
    assert EnabledSupportedTo(OS_2_TABLE, 19);
    assert EnabledSupportedTo(OS_2_TABLE, 20);
    assert EnabledSupportedTo(OS_2_TABLE, 21);
    assert EnabledSupportedTo(OS_2_TABLE, 22);
    assert EnabledSupportedTo(OS_2_TABLE, 23);
  }

  lemma Os2TableSupported()
    ensures EnabledSupportedTo(OS_2_TABLE, 30)
  {
    Os2TableSupported24();
    Os2TableRows0();
    Os2TableRows4();
    assert EnabledSupportedTo(OS_2_TABLE, 24);
    assert EnabledSupportedTo(OS_2_TABLE, 25);
    assert EnabledSupportedTo(OS_2_TABLE, 26);
    assert EnabledSupportedTo(OS_2_TABLE, 27);
    assert EnabledSupportedTo(OS_2_TABLE, 28);
    assert EnabledSupportedTo(OS_2_TABLE, 29);
  }

  /** The first optional row of `GDEF_TABLE` is row 6; the 6 rows before it take 12 bytes. */
  lemma GdefTableLayout()
    ensures PrefixLen(GDEF_TABLE) == 6
    ensures StructSize(GDEF_TABLE) == 12
    ensures EnabledSupportedTo(GDEF_TABLE, 6)
  {
    GdefTableRows0();
    GdefTableRows1();
    assert FirstOptionalFrom(GDEF_TABLE, 5) == 6;
    assert FirstOptionalFrom(GDEF_TABLE, 4) == 6;
    assert FirstOptionalFrom(GDEF_TABLE, 3) == 6;
    assert FirstOptionalFrom(GDEF_TABLE, 2) == 6;
    assert FirstOptionalFrom(GDEF_TABLE, 1) == 6;
    assert SumTo(GDEF_TABLE, 1) == 2;
    assert SumTo(GDEF_TABLE, 2) == 4;
    assert SumTo(GDEF_TABLE, 3) == 6;
    assert SumTo(GDEF_TABLE, 4) == 8;
    assert SumTo(GDEF_TABLE, 5) == 10;
    assert EnabledSupportedTo(GDEF_TABLE, 0);
    assert EnabledSupportedTo(GDEF_TABLE, 1);
    assert EnabledSupportedTo(GDEF_TABLE, 2);
    assert EnabledSupportedTo(GDEF_TABLE, 3);
    assert EnabledSupportedTo(GDEF_TABLE, 4);
    assert EnabledSupportedTo(GDEF_TABLE, 5);
  }

  /** `GDEF_CLASS_RANGE_RECORD` has no optional row; its 2 rows take 6 bytes. */
  lemma GdefClassRangeRecordLayout()
    ensures PrefixLen(GDEF_CLASS_RANGE_RECORD) == 2
    ensures StructSize(GDEF_CLASS_RANGE_RECORD) == 6
    ensures EnabledSupportedTo(GDEF_CLASS_RANGE_RECORD, 2)
  {
    GdefClassRangeRecordRows();
    assert FirstOptionalFrom(GDEF_CLASS_RANGE_RECORD, 1) == 2;
    assert SumTo(GDEF_CLASS_RANGE_RECORD, 1) == 4;
    assert EnabledSupportedTo(GDEF_CLASS_RANGE_RECORD, 0);
    assert EnabledSupportedTo(GDEF_CLASS_RANGE_RECORD, 1);
  }

  /** `GDEF_RANGE_RECORD` has no optional row; its 2 rows take 6 bytes. */
  lemma GdefRangeRecordLayout()
    ensures PrefixLen(GDEF_RANGE_RECORD) == 2
    ensures StructSize(GDEF_RANGE_RECORD) == 6
    ensures EnabledSupportedTo(GDEF_RANGE_RECORD, 2)
  {
    GdefRangeRecordRows();
    assert FirstOptionalFrom(GDEF_RANGE_RECORD, 1) == 2;
    assert SumTo(GDEF_RANGE_RECORD, 1) == 4;
    assert EnabledSupportedTo(GDEF_RANGE_RECORD, 0);
    assert EnabledSupportedTo(GDEF_RANGE_RECORD, 1);
  }

  // ---------------------------------------------------------------------
  // Named offsets
  // ---------------------------------------------------------------------

  lemma Os2SxHeightOffsetFrom24()
    ensures FindNameFrom(OS_2_TABLE, "sxHeight", 24) == Some(32)
  {
    Os2TableRows0();
    Os2TableRows4();
    Os2TableRows5();
    assert FindNameFrom(OS_2_TABLE, "sxHeight", 31) == Some(32);
    assert FindNameFrom(OS_2_TABLE, "sxHeight", 30) == Some(32);
    assert FindNameFrom(OS_2_TABLE, "sxHeight", 29) == Some(32);
    assert FindNameFrom(OS_2_TABLE, "sxHeight", 28) == Some(32);
    assert FindNameFrom(OS_2_TABLE, "sxHeight", 27) == Some(32);
    assert FindNameFrom(OS_2_TABLE, "sxHeight", 26) == Some(32);
    assert FindNameFrom(OS_2_TABLE, "sxHeight", 25) == Some(32);
  }
  lemma Os2SxHeightOffsetFrom12()
    ensures FindNameFrom(OS_2_TABLE, "sxHeight", 12) == Some(32)
  {
    Os2SxHeightOffsetFrom24();
    Os2TableRows0();
    Os2TableRows2();
    Os2TableRows3();
    Os2TableRows4();
    assert FindNameFrom(OS_2_TABLE, "sxHeight", 23) == Some(32);
    assert FindNameFrom(OS_2_TABLE, "sxHeight", 22) == Some(32);
    assert FindNameFrom(OS_2_TABLE, "sxHeight", 21) == Some(32);
    assert FindNameFrom(OS_2_TABLE, "sxHeight", 20) == Some(32);
    assert FindNameFrom(OS_2_TABLE, "sxHeight", 19) == Some(32);
    assert FindNameFrom(OS_2_TABLE, "sxHeight", 18) == Some(32);
    assert FindNameFrom(OS_2_TABLE, "sxHeight", 17) == Some(32);
    assert FindNameFrom(OS_2_TABLE, "sxHeight", 16) == Some(32);
    assert FindNameFrom(OS_2_TABLE, "sxHeight", 15) == Some(32);
    assert FindNameFrom(OS_2_TABLE, "sxHeight", 14) == Some(32);
    assert FindNameFrom(OS_2_TABLE, "sxHeight", 13) == Some(32);
  }
  lemma Os2SxHeightOffsetBytes()
    ensures SumTo(OS_2_TABLE, 32) == 86
  {
    Os2TableRows0();
    Os2TableRows5();
    Os2TableWidths();
    assert SumTo(OS_2_TABLE, 31) == 82;
  }

  /** `sxHeight` is row 32 of OS/2, the third optional row, 86 bytes in: past the 78-byte prefix and the two code-page ranges. */
  lemma Os2SxHeightOffset()
    ensures FindNameFrom(OS_2_TABLE, "sxHeight", 0) == Some(32)
    ensures SumTo(OS_2_TABLE, 32) == 86
  {
    Os2SxHeightOffsetFrom12();
    Os2TableRows0();
    Os2TableRows1();
    Os2TableRows2();
    assert FindNameFrom(OS_2_TABLE, "sxHeight", 11) == Some(32);
    assert FindNameFrom(OS_2_TABLE, "sxHeight", 10) == Some(32);
    assert FindNameFrom(OS_2_TABLE, "sxHeight", 9) == Some(32);
    assert FindNameFrom(OS_2_TABLE, "sxHeight", 8) == Some(32);
    assert FindNameFrom(OS_2_TABLE, "sxHeight", 7) == Some(32);
    assert FindNameFrom(OS_2_TABLE, "sxHeight", 6) == Some(32);
    assert FindNameFrom(OS_2_TABLE, "sxHeight", 5) == Some(32);
    assert FindNameFrom(OS_2_TABLE, "sxHeight", 4) == Some(32);
    assert FindNameFrom(OS_2_TABLE, "sxHeight", 3) == Some(32);
    assert FindNameFrom(OS_2_TABLE, "sxHeight", 2) == Some(32);
    assert FindNameFrom(OS_2_TABLE, "sxHeight", 1) == Some(32);
    Os2SxHeightOffsetBytes();
  }

  lemma GdefMarkGlyphSetsDefOffsetBytes()
    ensures SumTo(GDEF_TABLE, 6) == 12
  {
    GdefTableRows0();
    GdefTableLayout();
  }

  /** `markGlyphSetsDefOffset`, the first optional row of GDEF, sits right after the 12-byte prefix. */
  lemma GdefMarkGlyphSetsDefOffset()
    ensures FindNameFrom(GDEF_TABLE, "markGlyphSetsDefOffset", 0) == Some(6)
    ensures SumTo(GDEF_TABLE, 6) == 12
  {
    GdefTableRows0();
    GdefTableRows1();
    assert FindNameFrom(GDEF_TABLE, "markGlyphSetsDefOffset", 5) == Some(6);
    assert FindNameFrom(GDEF_TABLE, "markGlyphSetsDefOffset", 4) == Some(6);
    assert FindNameFrom(GDEF_TABLE, "markGlyphSetsDefOffset", 3) == Some(6);
    assert FindNameFrom(GDEF_TABLE, "markGlyphSetsDefOffset", 2) == Some(6);
    assert FindNameFrom(GDEF_TABLE, "markGlyphSetsDefOffset", 1) == Some(6);
    GdefMarkGlyphSetsDefOffsetBytes();
  }

  // ---------------------------------------------------------------------
  // Accessors
  // ---------------------------------------------------------------------

  /** The enabled rows of `TABLE_RECORD`'s prefix. */
  lemma TableRecordEnabledRows()
    ensures EnabledIndicesTo(TABLE_RECORD, 4) == [0, 2, 3]
  {
    TableRecordRows();
    assert EnabledIndicesTo(TABLE_RECORD, 1) == [0];
    assert EnabledIndicesTo(TABLE_RECORD, 2) == [0];
    assert EnabledIndicesTo(TABLE_RECORD, 3) == [0, 2];
  }

  /** A table record reads its tag at 0, skips the checksum, and reads offset and length at 8 and 12. */
  lemma TableRecordAccessors()
    ensures var acc := AccessorsTo(TABLE_RECORD, PrefixLen(TABLE_RECORD));
            |acc| == 3
            && acc[0] == Accessor("tableTag", Tag, 0)
            && acc[1] == Accessor("offset", Offset32, 8)
            && acc[2] == Accessor("length", UInt32, 12)
  {
    TableRecordLayout();
    TableRecordEnabledRows();
    TableRecordRows();
    assert SumTo(TABLE_RECORD, 1) == 4;
    assert SumTo(TABLE_RECORD, 2) == 8;
    assert SumTo(TABLE_RECORD, 3) == 12;
    AccessorsAreEnabledRows(TABLE_RECORD, 4);
  }

  /** The enabled rows of `HEAD_TABLE`'s prefix. */
  lemma HeadTableEnabledRows()
    ensures EnabledIndicesTo(HEAD_TABLE, 18) == [6, 16]
  {
    HeadTableRows0();
    HeadTableRows1();
    HeadTableRows2();
    assert EnabledIndicesTo(HEAD_TABLE, 1) == [];
    assert EnabledIndicesTo(HEAD_TABLE, 2) == [];
    assert EnabledIndicesTo(HEAD_TABLE, 3) == [];
    assert EnabledIndicesTo(HEAD_TABLE, 4) == [];
    assert EnabledIndicesTo(HEAD_TABLE, 5) == [];
    assert EnabledIndicesTo(HEAD_TABLE, 6) == [];
    assert EnabledIndicesTo(HEAD_TABLE, 7) == [6];
    assert EnabledIndicesTo(HEAD_TABLE, 8) == [6];
    assert EnabledIndicesTo(HEAD_TABLE, 9) == [6];
    assert EnabledIndicesTo(HEAD_TABLE, 10) == [6];
    assert EnabledIndicesTo(HEAD_TABLE, 11) == [6];
    assert EnabledIndicesTo(HEAD_TABLE, 12) == [6];
    assert EnabledIndicesTo(HEAD_TABLE, 13) == [6];
    assert EnabledIndicesTo(HEAD_TABLE, 14) == [6];
    assert EnabledIndicesTo(HEAD_TABLE, 15) == [6];
    assert EnabledIndicesTo(HEAD_TABLE, 16) == [6];
    assert EnabledIndicesTo(HEAD_TABLE, 17) == [6, 16];
  }

  /** `head` exposes only `unitsPerEm` at 18 and `indexToLocFormat` at 50. */
  lemma HeadTableAccessors()
    ensures var acc := AccessorsTo(HEAD_TABLE, PrefixLen(HEAD_TABLE));
            |acc| == 2
            && acc[0] == Accessor("unitsPerEm", UInt16, 18)
            && acc[1] == Accessor("indexToLocFormat", Int16, 50)
  {
    HeadTableLayout();
    HeadTableEnabledRows();
    HeadTableRows0();
    HeadTableRows1();
    HeadTableRows2();
    assert SumTo(HEAD_TABLE, 1) == 2;
    assert SumTo(HEAD_TABLE, 2) == 4;
    assert SumTo(HEAD_TABLE, 3) == 8;
    assert SumTo(HEAD_TABLE, 4) == 12;
    assert SumTo(HEAD_TABLE, 5) == 16;
    assert SumTo(HEAD_TABLE, 6) == 18;
    assert SumTo(HEAD_TABLE, 7) == 20;
    assert SumTo(HEAD_TABLE, 8) == 28;
    assert SumTo(HEAD_TABLE, 9) == 36;
    assert SumTo(HEAD_TABLE, 10) == 38;
    assert SumTo(HEAD_TABLE, 11) == 40;
    assert SumTo(HEAD_TABLE, 12) == 42;
    assert SumTo(HEAD_TABLE, 13) == 44;
    assert SumTo(HEAD_TABLE, 14) == 46;
    assert SumTo(HEAD_TABLE, 15) == 48;
    assert SumTo(HEAD_TABLE, 16) == 50;
    AccessorsAreEnabledRows(HEAD_TABLE, 18);
  }

  /** The enabled rows of `GDEF_TABLE`'s prefix. */
  lemma GdefTableEnabledRows()
    ensures EnabledIndicesTo(GDEF_TABLE, 6) == [0, 1, 2, 5]
  {
    GdefTableRows0();
    assert EnabledIndicesTo(GDEF_TABLE, 1) == [0];
    assert EnabledIndicesTo(GDEF_TABLE, 2) == [0, 1];
    assert EnabledIndicesTo(GDEF_TABLE, 3) == [0, 1, 2];
    assert EnabledIndicesTo(GDEF_TABLE, 4) == [0, 1, 2];
    assert EnabledIndicesTo(GDEF_TABLE, 5) == [0, 1, 2];
  }

  /** The GDEF header reads its versions and two class-definition offsets; disabled rows still advance the offset. */
  lemma GdefTableAccessors()
    ensures var acc := AccessorsTo(GDEF_TABLE, PrefixLen(GDEF_TABLE));
            |acc| == 4
            && acc[0] == Accessor("majorVersion", UInt16, 0)
            && acc[1] == Accessor("minorVersion", UInt16, 2)
            && acc[2] == Accessor("glyphClassDefOffset", OptionalOffset16, 4)
            && acc[3] == Accessor("markAttachClassDefOffset", OptionalOffset16, 10)
  {
    GdefTableLayout();
    GdefTableEnabledRows();
    GdefTableRows0();
    assert SumTo(GDEF_TABLE, 1) == 2;
    assert SumTo(GDEF_TABLE, 2) == 4;
    assert SumTo(GDEF_TABLE, 3) == 6;
    assert SumTo(GDEF_TABLE, 4) == 8;
    assert SumTo(GDEF_TABLE, 5) == 10;
    AccessorsAreEnabledRows(GDEF_TABLE, 6);
  }

  // ---------------------------------------------------------------------
  // The script
  // ---------------------------------------------------------------------

  /** One item of the generated file, with the `pub mod` it is printed in (`""` at top level). */
  datatype Item =
    | RecordCode(moduleName: string, code: TableCode)
    | OffsetCode(moduleName: string, constant: OffsetConst)

  /** The number an item carries: a record's size constant, or an offset constant's value. */
  function Number(item: Item): nat {
    match item
    case RecordCode(_, code) => code.size
    case OffsetCode(_, c) => c.value
  }

  function Numbers(items: seq<Item>): (ns: seq<nat>)
    ensures |ns| == |items|
  {
    seq(|items|, k requires 0 <= k < |items| => Number(items[k]))
  }

  /** The numbers of a list of items, read off item by item. */
  lemma NumbersOf(items: seq<Item>, ns: seq<nat>)
    requires |items| == |ns|
    requires forall k :: 0 <= k < |items| ==> Number(items[k]) == ns[k]
    ensures Numbers(items) == ns
  {
  }

  lemma NumbersAppend(a: seq<Item>, b: seq<Item>)
    ensures Numbers(a + b) == Numbers(a) + Numbers(b)
  {
    assert forall k :: 0 <= k < |a| ==> (a + b)[k] == a[k];
    assert forall k :: 0 <= k < |b| ==> (a + b)[|a| + k] == b[k];
  }

  /** The two records printed at the top level of the file. */
  method GenerateTopLevel() returns (items: seq<Item>)
    ensures Numbers(items) == [12, 16]
    ensures items[0].RecordCode? && items[0].moduleName == ""
            && items[0].code.structName == "TTCHeader" && items[0].code.shape == BorrowedArray(12)
            && items[0].code.fromData == false
    ensures items[1].RecordCode? && items[1].moduleName == ""
            && items[1].code.structName == "TableRecord" && items[1].code.shape == OwnedArray(16)
            && items[1].code.fromData == true
  {
    TtcHeaderLayout();
    var r0 := GenerateTable(TTC_HEADER, "TTCHeader", false, false, false);
    TableRecordLayout();
    var r1 := GenerateTable(TABLE_RECORD, "TableRecord", true, true, false);
    items := [RecordCode("", r0.value),
              RecordCode("", r1.value)];
    NumbersOf(items, [12, 16]);
  }

  /** `pub mod head`. */
  method GenerateHead() returns (items: seq<Item>)
    ensures Numbers(items) == [54]
    ensures items[0].RecordCode? && items[0].moduleName == "head"
            && items[0].code.structName == "Table" && items[0].code.shape == BorrowedArray(54)
            && items[0].code.fromData == false
  {
    HeadTableLayout();
    var r0 := GenerateTable(HEAD_TABLE, "Table", false, false, false);
    items := [RecordCode("head", r0.value)];
    NumbersOf(items, [54]);
  }

  /** `pub mod maxp`. */
  method GenerateMaxp() returns (items: seq<Item>)
    ensures Numbers(items) == [6]
    ensures items[0].RecordCode? && items[0].moduleName == "maxp"
            && items[0].code.structName == "Table" && items[0].code.shape == BorrowedArray(6)
            && items[0].code.fromData == false
  {
    MaxpTableLayout();
    var r0 := GenerateTable(MAXP_TABLE, "Table", false, false, false);
    items := [RecordCode("maxp", r0.value)];
    NumbersOf(items, [6]);
  }

  /** `pub mod hhea`. */
  method GenerateHhea() returns (items: seq<Item>)
    ensures Numbers(items) == [36]
    ensures items[0].RecordCode? && items[0].moduleName == "hhea"
            && items[0].code.structName == "Table" && items[0].code.shape == BorrowedArray(36)
            && items[0].code.fromData == false
  {
    HheaTableLayout();
    var r0 := GenerateTable(HHEA_TABLE, "Table", false, false, false);
    items := [RecordCode("hhea", r0.value)];
    NumbersOf(items, [36]);
  }

  /** `pub mod hmtx`. */
  method GenerateHmtx() returns (items: seq<Item>)
    ensures Numbers(items) == [4]
    ensures items[0].RecordCode? && items[0].moduleName == "hmtx"
            && items[0].code.structName == "HorizontalMetrics" && items[0].code.shape == OwnedArray(4)
            && items[0].code.fromData == true
  {
    HmtxMetricsLayout();
    var r0 := GenerateTable(HMTX_METRICS, "HorizontalMetrics", true, true, false);
    items := [RecordCode("hmtx", r0.value)];
    NumbersOf(items, [4]);
  }

  /** `pub mod vhea`. */
  method GenerateVhea() returns (items: seq<Item>)
    ensures Numbers(items) == [36]
    ensures items[0].RecordCode? && items[0].moduleName == "vhea"
            && items[0].code.structName == "Table" && items[0].code.shape == BorrowedArray(36)
            && items[0].code.fromData == false
  {
    VheaTableLayout();
    var r0 := GenerateTable(VHEA_TABLE, "Table", false, false, false);
    items := [RecordCode("vhea", r0.value)];
    NumbersOf(items, [36]);
  }

  /** `pub mod vmtx`. */
  method GenerateVmtx() returns (items: seq<Item>)
    ensures Numbers(items) == [4]
    ensures items[0].RecordCode? && items[0].moduleName == "vmtx"
            && items[0].code.structName == "VerticalMetrics" && items[0].code.shape == OwnedArray(4)
            && items[0].code.fromData == true
  {
    VmtxMetricsLayout();
    var r0 := GenerateTable(VMTX_METRICS, "VerticalMetrics", true, true, false);
    items := [RecordCode("vmtx", r0.value)];
    NumbersOf(items, [4]);
  }

  /** `pub mod cmap`: the six `cmap` records. */
  method GenerateCmap() returns (items: seq<Item>)
    ensures Numbers(items) == [8, 8, 12, 4, 5, 11]
    ensures items[0].RecordCode? && items[0].moduleName == "cmap"
            && items[0].code.structName == "EncodingRecord" && items[0].code.shape == OwnedArray(8)
            && items[0].code.fromData == true
    ensures items[1].RecordCode? && items[1].moduleName == "cmap"
            && items[1].code.structName == "SubHeaderRecord" && items[1].code.shape == OwnedArray(8)
            && items[1].code.fromData == true
    ensures items[2].RecordCode? && items[2].moduleName == "cmap"
            && items[2].code.structName == "SequentialMapGroup" && items[2].code.shape == OwnedArray(12)
            && items[2].code.fromData == true
    ensures items[3].RecordCode? && items[3].moduleName == "cmap"
            && items[3].code.structName == "UnicodeRangeRecord" && items[3].code.shape == OwnedArray(4)
            && items[3].code.fromData == true
    ensures items[4].RecordCode? && items[4].moduleName == "cmap"
            && items[4].code.structName == "UVSMappingRecord" && items[4].code.shape == OwnedArray(5)
            && items[4].code.fromData == true
    ensures items[5].RecordCode? && items[5].moduleName == "cmap"
            && items[5].code.structName == "VariationSelectorRecord" && items[5].code.shape == OwnedArray(11)
            && items[5].code.fromData == true
  {
    CmapEncodingRecordLayout();
    var r0 := GenerateTable(CMAP_ENCODING_RECORD, "EncodingRecord", true, true, false);
    CmapSubHeaderRecordLayout();
    var r1 := GenerateTable(CMAP_SUB_HEADER_RECORD, "SubHeaderRecord", true, true, false);
    CmapSequentialMapGroupRecordLayout();
    var r2 := GenerateTable(CMAP_SEQUENTIAL_MAP_GROUP_RECORD, "SequentialMapGroup", true, true, false);
    CmapUnicodeRangeRecordLayout();
    var r3 := GenerateTable(CMAP_UNICODE_RANGE_RECORD, "UnicodeRangeRecord", true, true, false);
    CmapUvsMappingRecordLayout();
    var r4 := GenerateTable(CMAP_UVS_MAPPING_RECORD, "UVSMappingRecord", true, true, false);
    CmapVariationSelectorRecordLayout();
    var r5 := GenerateTable(CMAP_VARIATION_SELECTOR_RECORD, "VariationSelectorRecord", true, true, false);
    items := [RecordCode("cmap", r0.value),
              RecordCode("cmap", r1.value),
              RecordCode("cmap", r2.value),
              RecordCode("cmap", r3.value),
              RecordCode("cmap", r4.value),
              RecordCode("cmap", r5.value)];
    NumbersOf(items, [8, 8, 12, 4, 5, 11]);
  }

  /** `pub mod os_2`: the `sxHeight` offset, then the table itself, with a tail. */
  method GenerateOs2() returns (items: seq<Item>)
    ensures Numbers(items) == [86, 78]
    ensures items[0] == OffsetCode("os_2", OffsetConst("sxHeight", 86))
    ensures items[1].RecordCode? && items[1].moduleName == "os_2"
            && items[1].code.structName == "Table" && items[1].code.shape == BorrowedSlice
            && items[1].code.fromData == false
  {
    Os2SxHeightOffset();
    var r0 := TableFieldOffset(OS_2_TABLE, "sxHeight");
    Os2TableLayout();
    var r1 := GenerateTable(OS_2_TABLE, "Table", false, false, true);
    items := [OffsetCode("os_2", r0.value),
              RecordCode("os_2", r1.value)];
    NumbersOf(items, [86, 78]);
  }

  /** `pub mod name`. */
  method GenerateName() returns (items: seq<Item>)
    ensures Numbers(items) == [12]
    ensures items[0].RecordCode? && items[0].moduleName == "name"
            && items[0].code.structName == "NameRecord" && items[0].code.shape == OwnedArray(12)
            && items[0].code.fromData == false
  {
    NameRecordTableLayout();
    var r0 := GenerateTable(NAME_RECORD_TABLE, "NameRecord", true, false, false);
    items := [RecordCode("name", r0.value)];
    NumbersOf(items, [12]);
  }

  /** `pub mod gdef`: the `markGlyphSetsDefOffset` offset, the header with a tail, and two records. */
  method GenerateGdef() returns (items: seq<Item>)
    ensures Numbers(items) == [12, 12, 6, 6]
    ensures items[0] == OffsetCode("gdef", OffsetConst("markGlyphSetsDefOffset", 12))
    ensures items[1].RecordCode? && items[1].moduleName == "gdef"
            && items[1].code.structName == "Table" && items[1].code.shape == BorrowedSlice
            && items[1].code.fromData == false
    ensures items[2].RecordCode? && items[2].moduleName == "gdef"
            && items[2].code.structName == "ClassRangeRecord" && items[2].code.shape == OwnedArray(6)
            && items[2].code.fromData == true
    ensures items[3].RecordCode? && items[3].moduleName == "gdef"
            && items[3].code.structName == "RangeRecord" && items[3].code.shape == OwnedArray(6)
            && items[3].code.fromData == true
  {
    GdefMarkGlyphSetsDefOffset();
    var r0 := TableFieldOffset(GDEF_TABLE, "markGlyphSetsDefOffset");
    GdefTableLayout();
    var r1 := GenerateTable(GDEF_TABLE, "Table", false, false, true);
    GdefClassRangeRecordLayout();
    var r2 := GenerateTable(GDEF_CLASS_RANGE_RECORD, "ClassRangeRecord", true, true, false);
    GdefRangeRecordLayout();
    var r3 := GenerateTable(GDEF_RANGE_RECORD, "RangeRecord", true, true, false);
    items := [OffsetCode("gdef", r0.value),
              RecordCode("gdef", r1.value),
              RecordCode("gdef", r2.value),
              RecordCode("gdef", r3.value)];
    NumbersOf(items, [12, 12, 6, 6]);
  }

  /**
   * The script's calls, in order. None of them fails, so the script runs to
   * the end; the items carry the catalogue's sizes and offsets in file order.
   */
  method GenerateFile() returns (items: seq<Item>)
    ensures Numbers(items) == [12, 16, 54, 6, 36, 4, 36, 4, 8, 8, 12, 4, 5, 11, 86, 78, 12, 12, 12, 6, 6]
  {
    var toplevel := GenerateTopLevel();
    var head := GenerateHead();
    var maxp := GenerateMaxp();
    var hhea := GenerateHhea();
    var hmtx := GenerateHmtx();
    var vhea := GenerateVhea();
    var vmtx := GenerateVmtx();
    var cmap := GenerateCmap();
    var os2 := GenerateOs2();
    var name := GenerateName();
    var gdef := GenerateGdef();
    items := toplevel + head + maxp + hhea + hmtx + vhea + vmtx + cmap + os2 + name + gdef;
    FileNumbers(toplevel, head, maxp, hhea, hmtx, vhea, vmtx, cmap, os2, name, gdef);
  }

  /** The numbers of the whole file, from those of its parts. */
  lemma FileNumbers(toplevel: seq<Item>, head: seq<Item>, maxp: seq<Item>, hhea: seq<Item>,
                    hmtx: seq<Item>, vhea: seq<Item>, vmtx: seq<Item>, cmap: seq<Item>,
                    os2: seq<Item>, name: seq<Item>, gdef: seq<Item>)
    requires Numbers(toplevel) == [12, 16]
    requires Numbers(head) == [54]
    requires Numbers(maxp) == [6]
    requires Numbers(hhea) == [36]
    requires Numbers(hmtx) == [4]
    requires Numbers(vhea) == [36]
    requires Numbers(vmtx) == [4]
    requires Numbers(cmap) == [8, 8, 12, 4, 5, 11]
    requires Numbers(os2) == [86, 78]
    requires Numbers(name) == [12]
    requires Numbers(gdef) == [12, 12, 6, 6]
    ensures Numbers(toplevel + head + maxp + hhea + hmtx + vhea + vmtx + cmap + os2 + name + gdef) == [12, 16, 54, 6, 36, 4, 36, 4, 8, 8, 12, 4, 5, 11, 86, 78, 12, 12, 12, 6, 6]
  {
    NumbersAppend(toplevel, head);
    NumbersAppend(toplevel + head, maxp);
    NumbersAppend(toplevel + head + maxp, hhea);
    NumbersAppend(toplevel + head + maxp + hhea, hmtx);
    NumbersAppend(toplevel + head + maxp + hhea + hmtx, vhea);
    NumbersAppend(toplevel + head + maxp + hhea + hmtx + vhea, vmtx);
    NumbersAppend(toplevel + head + maxp + hhea + hmtx + vhea + vmtx, cmap);
    NumbersAppend(toplevel + head + maxp + hhea + hmtx + vhea + vmtx + cmap, os2);
    NumbersAppend(toplevel + head + maxp + hhea + hmtx + vhea + vmtx + cmap + os2, name);
    NumbersAppend(toplevel + head + maxp + hhea + hmtx + vhea + vmtx + cmap + os2 + name, gdef);
  }
}
