/**
 * The field-type catalogue of the table generator: every binary encoding a
 * record row may have, its fixed width in bytes, the Rust type of the accessor
 * emitted for it, and the meaning of the read expression that accessor
 * performs on the record's big-endian bytes.
 */
module FieldTypes {
  import opened Wrappers

  /** One byte of a font table. */
  type byte = b: int | 0 <= b < 0x100

  /**
   * The closed set of field types. FWord, UFWord, Offset16 and Offset32 are
   * aliases (subclasses without overrides) of Int16, UInt16, UInt16 and
   * UInt32; Fixed, LongDateTime and Panose only have a size.
   */
  datatype FieldType =
    | UInt8 | UInt16 | Int16 | UInt24 | UInt32
    | FWord | UFWord | Offset16 | OptionalOffset16 | Offset32 | OptionalOffset32
    | GlyphId | GlyphIdRangeInclusive | Tag
    | Fixed | LongDateTime | Panose

  /** The two exceptions the generator can raise. */
  datatype GenError =
    | NotImplemented   // an accessor was requested for a size-only type
    | UnknownField     // a named offset was requested for a field no row has

  /** The return type written into an emitted accessor's signature. */
  datatype RustType =
    | U8 | U16 | I16 | U32
    | OptionOffset16 | OptionOffset32
    | GlyphIdType | GlyphIdRange | TagBytes

  /** The value an emitted accessor returns. */
  datatype Value =
    | Unsigned(n: nat)
    | Signed(i: int)
    | Bytes(b: seq<byte>)
    | Glyph(id: nat)
    | GlyphRange(first: nat, last: nat)
    | MaybeOffset(offset: Option<nat>)

  /** True for the types that can be read by an accessor. */
  predicate Supported(t: FieldType) {
    !(t.Fixed? || t.LongDateTime? || t.Panose?)
  }

  /** The number of bytes a field of type `t` occupies. */
  function Width(t: FieldType): (w: nat)
    ensures 1 <= w <= 10
    ensures !Supported(t) ==> w >= 4
  {
    match t
    case UInt8 => 1
    case UInt16 | Int16 | FWord | UFWord | Offset16 | OptionalOffset16 | GlyphId => 2
    case UInt24 => 3
    case UInt32 | Offset32 | OptionalOffset32 | GlyphIdRangeInclusive | Tag | Fixed => 4
    case LongDateTime => 8
    case Panose => 10
  }

  /** The accessor return type; size-only types raise NotImplemented. */
  function ToRust(t: FieldType): (r: Result<RustType, GenError>)
    ensures r.Err? <==> !Supported(t)
    ensures r.Err? ==> r.error == NotImplemented
  {
    match t
    case UInt8 => Ok(U8)
    case UInt16 | UFWord | Offset16 => Ok(U16)
    case Int16 | FWord => Ok(I16)
    case UInt24 | UInt32 | Offset32 => Ok(U32)
    case OptionalOffset16 => Ok(OptionOffset16)
    case OptionalOffset32 => Ok(OptionOffset32)
    case GlyphId => Ok(GlyphIdType)
    case GlyphIdRangeInclusive => Ok(GlyphIdRange)
    case Tag => Ok(TagBytes)
    case Fixed | LongDateTime | Panose => Err(NotImplemented)
  }

  /** The values a Rust type can hold. */
  predicate HasType(v: Value, rt: RustType) {
    match rt
    case U8 => v.Unsigned? && v.n < 0x100
    case U16 => v.Unsigned? && v.n < 0x1_0000
    case I16 => v.Signed? && -0x8000 <= v.i < 0x8000
    case U32 => v.Unsigned? && v.n < 0x1_0000_0000
    case OptionOffset16 => v.MaybeOffset? && (v.offset.Some? ==> v.offset.value < 0x1_0000)
    case OptionOffset32 => v.MaybeOffset? && (v.offset.Some? ==> v.offset.value < 0x1_0000_0000)
    case GlyphIdType => v.Glyph? && v.id < 0x1_0000
    case GlyphIdRange => v.GlyphRange? && v.first < 0x1_0000 && v.last < 0x1_0000
    case TagBytes => v.Bytes? && |v.b| == 4
  }

  /**
   * The values a field of type `t` can decode to: those its bytes can hold,
   * where an optional offset never holds a present zero.
   */
  predicate InRange(t: FieldType, v: Value) {
    match t
    case UInt8 => v.Unsigned? && v.n < 0x100
    case UInt16 | UFWord | Offset16 => v.Unsigned? && v.n < 0x1_0000
    case Int16 | FWord => v.Signed? && -0x8000 <= v.i < 0x8000
    case UInt24 => v.Unsigned? && v.n < 0x100_0000
    case UInt32 | Offset32 => v.Unsigned? && v.n < 0x1_0000_0000
    case OptionalOffset16 =>
      v.MaybeOffset? && (v.offset.Some? ==> 0 < v.offset.value < 0x1_0000)
    case OptionalOffset32 =>
      v.MaybeOffset? && (v.offset.Some? ==> 0 < v.offset.value < 0x1_0000_0000)
    case GlyphId => v.Glyph? && v.id < 0x1_0000
    case GlyphIdRangeInclusive => v.GlyphRange? && v.first < 0x1_0000 && v.last < 0x1_0000
    case Tag => v.Bytes? && |v.b| == 4
    case Fixed | LongDateTime | Panose => false
  }

  // ---------------------------------------------------------------------
  // The read expressions, as the emitted accessors spell them
  // ---------------------------------------------------------------------

  /** `u16::from_be_bytes([data[o], data[o + 1]])` */
  function U16At(data: seq<byte>, o: nat): (n: nat)
    requires o + 2 <= |data|
    ensures n < 0x1_0000
  {
    data[o] as int * 0x100 + data[o + 1]
  }

  /**
   * `(data[o] as u32) << 16 | (data[o + 1] as u32) << 8 | data[o + 2] as u32`,
   * written as a sum: the shifted bytes do not overlap (ShiftOrIsSum).
   */
  function U24At(data: seq<byte>, o: nat): (n: nat)
    requires o + 3 <= |data|
    ensures n < 0x100_0000
  {
    data[o] as int * 0x1_0000 + data[o + 1] as int * 0x100 + data[o + 2]
  }

  /** On three bytes widened to `u32`, shifting and or-ing is adding. */
  lemma ShiftOrIsSum(a: bv32, b: bv32, c: bv32)
    requires a < 0x100 && b < 0x100 && c < 0x100
    ensures (a << 16) | (b << 8) | c == a * 0x1_0000 + b * 0x100 + c
  {
  }

  /** `u32::from_be_bytes([data[o], .., data[o + 3]])` */
  function U32At(data: seq<byte>, o: nat): (n: nat)
    requires o + 4 <= |data|
    ensures n < 0x1_0000_0000
  {
    data[o] as int * 0x100_0000 + data[o + 1] as int * 0x1_0000 + data[o + 2] as int * 0x100 + data[o + 3]
  }

  /** Two's-complement reading of a 16-bit pattern, as `i16::from_be_bytes` does. */
  function Signed16(u: nat): (i: int)
    requires u < 0x1_0000
    ensures -0x8000 <= i < 0x8000
    ensures i % 0x1_0000 == u
  {
    if u < 0x8000 then u else u - 0x1_0000
  }

  /**
   * What the accessor emitted for a field of type `t` at byte `offset`
   * returns. Size-only types have no read expression: the generator raises.
   */
  function Decode(t: FieldType, data: seq<byte>, offset: nat): (r: Result<Value, GenError>)
    requires offset + Width(t) <= |data|
    ensures r.Ok? <==> Supported(t)
    ensures r.Err? ==> r.error == NotImplemented
    ensures r.Ok? ==> InRange(t, r.value)
  {
    match t
    case UInt8 => Ok(Unsigned(data[offset]))
    case UInt16 | UFWord | Offset16 => Ok(Unsigned(U16At(data, offset)))
    case Int16 | FWord => Ok(Signed(Signed16(U16At(data, offset))))
    case UInt24 => Ok(Unsigned(U24At(data, offset)))
    case UInt32 | Offset32 => Ok(Unsigned(U32At(data, offset)))
    case OptionalOffset16 =>
      var n := U16At(data, offset);
      Ok(MaybeOffset(if n != 0 then Some(n) else None))
    case OptionalOffset32 =>
      var n := U32At(data, offset);
      Ok(MaybeOffset(if n != 0 then Some(n) else None))
    case GlyphId => Ok(Glyph(U16At(data, offset)))
    case GlyphIdRangeInclusive => Ok(GlyphRange(U16At(data, offset), U16At(data, offset + 2)))
    case Tag => Ok(Bytes(data[offset..offset + 4]))
    case Fixed | LongDateTime | Panose => Err(NotImplemented)
  }

  /** Every value a field can decode to fits the Rust type its accessor is declared to return. */
  lemma InRangeHasRustType(t: FieldType, v: Value)
    requires Supported(t) && InRange(t, v)
    ensures HasType(v, ToRust(t).value)
  {
  }

  /** What an emitted accessor reads has the type written in its signature. */
  lemma DecodeHasRustType(t: FieldType, data: seq<byte>, offset: nat)
    requires offset + Width(t) <= |data| && Supported(t)
    ensures HasType(Decode(t, data, offset).value, ToRust(t).value)
  {
    InRangeHasRustType(t, Decode(t, data, offset).value);
  }

  // ---------------------------------------------------------------------
  // A reference reading of big-endian integers, and its inverse
  // ---------------------------------------------------------------------

  function Pow256(w: nat): (p: nat)
    ensures p >= 1
  {
    if w == 0 then 1 else 0x100 * Pow256(w - 1)
  }

  lemma Pow256Values()
    ensures Pow256(1) == 0x100 && Pow256(2) == 0x1_0000
    ensures Pow256(3) == 0x100_0000 && Pow256(4) == 0x1_0000_0000
  {
  }

  /** The unsigned number whose big-endian bytes are `s`. */
  function BigEndian(s: seq<byte>): (n: nat)
    ensures n < Pow256(|s|)
  {
    if s == [] then 0
    else
      var init := BigEndian(s[..|s| - 1]);
      assert init * 0x100 <= (Pow256(|s| - 1) - 1) * 0x100;
      init * 0x100 + s[|s| - 1]
  }

  /** The `w` big-endian bytes of `n`. */
  function ToBigEndian(n: nat, w: nat): (s: seq<byte>)
    requires n < Pow256(w)
    ensures |s| == w
  {
    if w == 0 then [] else ToBigEndian(n / 0x100, w - 1) + [n % 0x100]
  }

  lemma {:induction false} BigEndianOfToBigEndian(n: nat, w: nat)
    requires n < Pow256(w)
    ensures BigEndian(ToBigEndian(n, w)) == n
  {
    if w > 0 {
      var s := ToBigEndian(n, w);
      BigEndianOfToBigEndian(n / 0x100, w - 1);
      assert s[..|s| - 1] == ToBigEndian(n / 0x100, w - 1);
    }
  }

  lemma {:induction false} ToBigEndianOfBigEndian(s: seq<byte>)
    ensures ToBigEndian(BigEndian(s), |s|) == s
  {
    if s != [] {
      var init := s[..|s| - 1];
      ToBigEndianOfBigEndian(init);
      assert BigEndian(s) / 0x100 == BigEndian(init);
      assert s == init + [s[|s| - 1]];
    }
  }

  // ---------------------------------------------------------------------
  // The encoder: the partner of Decode
  // ---------------------------------------------------------------------

  /** The 16-bit two's-complement pattern of `i`. */
  function Unsigned16(i: int): (u: nat)
    requires -0x8000 <= i < 0x8000
    ensures u < 0x1_0000 && Signed16(u) == i
  {
    if i < 0 then i + 0x1_0000 else i
  }

  /** The bytes a field of type `t` holding `v` consists of. */
  function EncodeField(t: FieldType, v: Value): (s: seq<byte>)
    requires InRange(t, v)
    ensures |s| == Width(t)
  {
    match t
    case UInt8 | UInt16 | UFWord | Offset16 | UInt24 | UInt32 | Offset32 =>
      ToBigEndian(v.n, Width(t))
    case Int16 | FWord => ToBigEndian(Unsigned16(v.i), 2)
    case OptionalOffset16 | OptionalOffset32 =>
      ToBigEndian(if v.offset.Some? then v.offset.value else 0, Width(t))
    case GlyphId => ToBigEndian(v.id, 2)
    case GlyphIdRangeInclusive => ToBigEndian(v.first, 2) + ToBigEndian(v.last, 2)
    case Tag => v.b
  }

  // ---------------------------------------------------------------------
  // Properties of the catalogue
  // ---------------------------------------------------------------------

  /**
   * The integer read expressions agree with the reference big-endian
   * reading of the field's own bytes, two's-complement for the signed ones.
   */
  lemma IntegerDecodeIsBigEndian(t: FieldType, data: seq<byte>, offset: nat)
    requires offset + Width(t) <= |data|
    requires t in {UInt8, UInt16, UFWord, Offset16, UInt24, UInt32, Offset32, Int16, FWord}
    ensures var raw := BigEndian(data[offset..offset + Width(t)]);
            raw < 0x1_0000 || !(t.Int16? || t.FWord?)
    ensures var raw := BigEndian(data[offset..offset + Width(t)]);
            Decode(t, data, offset)
              == if t.Int16? || t.FWord? then Ok(Signed(Signed16(raw))) else Ok(Unsigned(raw))
  {
    match t
    case UInt8 => BigEndianU8(data, offset);
    case UInt16 | UFWord | Offset16 | Int16 | FWord => BigEndianU16(data, offset);
    case UInt24 => BigEndianU24(data, offset);
    case UInt32 | Offset32 => BigEndianU32(data, offset);
  }

  lemma BigEndianU8(data: seq<byte>, o: nat)
    requires o + 1 <= |data|
    ensures BigEndian(data[o..o + 1]) == data[o] as int
  {
    assert data[o..o] == [];
    BigEndianWindowStep(data, o, 0);
  }

  lemma BigEndianU16(data: seq<byte>, o: nat)
    requires o + 2 <= |data|
    ensures BigEndian(data[o..o + 2]) == U16At(data, o)
  {
    BigEndianU8(data, o);
    BigEndianWindowStep(data, o, 1);
  }

  lemma BigEndianU24(data: seq<byte>, o: nat)
    requires o + 3 <= |data|
    ensures BigEndian(data[o..o + 3]) == U24At(data, o)
  {
    BigEndianU16(data, o);
    BigEndianWindowStep(data, o, 2);
  }

  lemma BigEndianU32(data: seq<byte>, o: nat)
    requires o + 4 <= |data|
    ensures BigEndian(data[o..o + 4]) == U32At(data, o)
  {
    BigEndianU24(data, o);
    BigEndianWindowStep(data, o, 3);
  }

  /** Widening a window by one byte shifts the reading left by eight bits. */
  lemma BigEndianWindowStep(data: seq<byte>, offset: nat, k: nat)
    requires offset + k + 1 <= |data|
    ensures BigEndian(data[offset..offset + k + 1])
            == BigEndian(data[offset..offset + k]) * 0x100 + data[offset + k] as int
  {
    var s := data[offset..offset + k + 1];
    assert s[..|s| - 1] == data[offset..offset + k];
  }

  /** A field reads only its own `Width(t)` bytes. */
  lemma DecodeIsLocal(t: FieldType, data: seq<byte>, offset: nat)
    requires offset + Width(t) <= |data|
    ensures Decode(t, data, offset) == Decode(t, data[offset..offset + Width(t)], 0)
  {
    var s := data[offset..offset + Width(t)];
    if t.Tag? {
      assert s[0..4] == s;
    }
  }

  /** The aliases have their parent's width, return type and decoding. */
  lemma AliasesInherit(data: seq<byte>, offset: nat)
    ensures Width(FWord) == Width(Int16) && ToRust(FWord) == ToRust(Int16)
    ensures Width(UFWord) == Width(UInt16) && ToRust(UFWord) == ToRust(UInt16)
    ensures Width(Offset16) == Width(UInt16) && ToRust(Offset16) == ToRust(UInt16)
    ensures Width(Offset32) == Width(UInt32) && ToRust(Offset32) == ToRust(UInt32)
    ensures offset + 2 <= |data| ==>
              Decode(FWord, data, offset) == Decode(Int16, data, offset)
              && Decode(UFWord, data, offset) == Decode(UInt16, data, offset)
              && Decode(Offset16, data, offset) == Decode(UInt16, data, offset)
    ensures offset + 4 <= |data| ==> Decode(Offset32, data, offset) == Decode(UInt32, data, offset)
  {
  }

  /**
   * The optional offsets: absent exactly when the raw big-endian value is
   * zero, present with that raw value otherwise.
   */
  lemma OptionalOffsetAbsentIffZero(t: FieldType, data: seq<byte>, offset: nat)
    requires t == OptionalOffset16 || t == OptionalOffset32
    requires offset + Width(t) <= |data|
    ensures var raw := BigEndian(data[offset..offset + Width(t)]);
            Decode(t, data, offset) == Ok(MaybeOffset(if raw == 0 then None else Some(raw)))
  {
    var base := if t.OptionalOffset16? then UInt16 else UInt32;
    IntegerDecodeIsBigEndian(base, data, offset);
  }

  /** The 2-byte big-endian reading of `ToBigEndian(n, 2)` placed anywhere. */
  lemma U16AtOfEncoding(s: seq<byte>, o: nat, n: nat)
    requires n < 0x1_0000 && o + 2 <= |s| && s[o..o + 2] == ToBigEndian(n, 2)
    ensures U16At(s, o) == n
  {
    BigEndianOfToBigEndian(n, 2);
    IntegerDecodeIsBigEndian(UInt16, s, o);
  }

  lemma {:induction false} DecodeEncodeUnsigned(t: FieldType, n: nat)
    requires t in {UInt8, UInt16, UFWord, Offset16, UInt24, UInt32, Offset32}
    requires InRange(t, Unsigned(n))
    ensures Decode(t, EncodeField(t, Unsigned(n)), 0) == Ok(Unsigned(n))
  {
    var s := EncodeField(t, Unsigned(n));
    Pow256Values();
    BigEndianOfToBigEndian(n, Width(t));
    IntegerDecodeIsBigEndian(t, s, 0);
    assert s[0..Width(t)] == s;
  }

  lemma {:induction false} DecodeEncodeSigned(t: FieldType, i: int)
    requires t == Int16 || t == FWord
    requires InRange(t, Signed(i))
    ensures Decode(t, EncodeField(t, Signed(i)), 0) == Ok(Signed(i))
  {
    var s := EncodeField(t, Signed(i));
    U16AtOfEncoding(s, 0, Unsigned16(i));
  }

  lemma {:induction false} DecodeEncodeOptional(t: FieldType, o: Option<nat>)
    requires t == OptionalOffset16 || t == OptionalOffset32
    requires InRange(t, MaybeOffset(o))
    ensures Decode(t, EncodeField(t, MaybeOffset(o)), 0) == Ok(MaybeOffset(o))
  {
    var s := EncodeField(t, MaybeOffset(o));
    var raw := if o.Some? then o.value else 0;
    Pow256Values();
    BigEndianOfToBigEndian(raw, Width(t));
    OptionalOffsetAbsentIffZero(t, s, 0);
    assert s[0..Width(t)] == s;
  }

  lemma {:induction false} DecodeEncodeRange(first: nat, last: nat)
    requires first < 0x1_0000 && last < 0x1_0000
    ensures var v := GlyphRange(first, last);
            Decode(GlyphIdRangeInclusive, EncodeField(GlyphIdRangeInclusive, v), 0) == Ok(v)
  {
    var s := EncodeField(GlyphIdRangeInclusive, GlyphRange(first, last));
    assert s[0..2] == ToBigEndian(first, 2);
    assert s[2..4] == ToBigEndian(last, 2);
    U16AtOfEncoding(s, 0, first);
    U16AtOfEncoding(s, 2, last);
  }

  /** Decoding the encoding of an in-range value gives the value back. */
  lemma {:induction false} DecodeEncode(t: FieldType, v: Value)
    requires InRange(t, v)
    ensures Decode(t, EncodeField(t, v), 0) == Ok(v)
  {
    match t
    case UInt8 | UInt16 | UFWord | Offset16 | UInt24 | UInt32 | Offset32 =>
      DecodeEncodeUnsigned(t, v.n);
    case Int16 | FWord =>
      DecodeEncodeSigned(t, v.i);
    case OptionalOffset16 | OptionalOffset32 =>
      DecodeEncodeOptional(t, v.offset);
    case GlyphId =>
      var s := EncodeField(t, v);
      U16AtOfEncoding(s, 0, v.id);
    case GlyphIdRangeInclusive =>
      DecodeEncodeRange(v.first, v.last);
    case Tag =>
      assert EncodeField(t, v)[0..4] == v.b;
  }

  /** Re-encoding a field's bytes through its reference big-endian reading. */
  lemma {:induction false} EncodeDecodeInteger(t: FieldType, s: seq<byte>)
    requires t in {UInt8, UInt16, UFWord, Offset16, UInt24, UInt32, Offset32, Int16, FWord,
                   OptionalOffset16, OptionalOffset32, GlyphId}
    requires |s| == Width(t)
    ensures EncodeField(t, Decode(t, s, 0).value) == s
  {
    assert s[0..Width(t)] == s;
    ToBigEndianOfBigEndian(s);
    if t.OptionalOffset16? || t.OptionalOffset32? {
      OptionalOffsetAbsentIffZero(t, s, 0);
    } else if t.GlyphId? {
      IntegerDecodeIsBigEndian(UInt16, s, 0);
    } else {
      IntegerDecodeIsBigEndian(t, s, 0);
    }
  }

  lemma {:induction false} EncodeDecodeRange(s: seq<byte>)
    requires |s| == 4
    ensures EncodeField(GlyphIdRangeInclusive, Decode(GlyphIdRangeInclusive, s, 0).value) == s
  {
    var lo, hi := s[..2], s[2..];
    assert s == lo + hi;
    IntegerDecodeIsBigEndian(UInt16, lo, 0);
    IntegerDecodeIsBigEndian(UInt16, hi, 0);
    assert lo[0..2] == lo && hi[0..2] == hi;
    assert U16At(s, 0) == U16At(lo, 0);
    assert U16At(s, 2) == U16At(hi, 0);
    ToBigEndianOfBigEndian(lo);
    ToBigEndianOfBigEndian(hi);
  }

  /** Encoding what a field decodes to gives its bytes back. */
  lemma {:induction false} EncodeDecode(t: FieldType, s: seq<byte>)
    requires Supported(t) && |s| == Width(t)
    ensures EncodeField(t, Decode(t, s, 0).value) == s
  {
    match t
    case GlyphIdRangeInclusive => EncodeDecodeRange(s);
    case Tag => assert s[0..4] == s;
    case _ => EncodeDecodeInteger(t, s);
  }
}
