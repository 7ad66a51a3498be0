/**
 * The code generator proper: `generate_table` and `table_field_offset`.
 *
 * What the generator prints is modelled as a descriptor of the emitted
 * Rust code (`TableCode`, `OffsetConst`) rather than as text, together with
 * the run-time meaning of the emitted constructor and accessors: a
 * constructor either panics (`None`) or yields a record holding its input,
 * and an accessor either panics on an out-of-bounds index (`None`) or
 * returns the decoded field.
 */
module Emitter {
  import opened Wrappers
  import opened FieldTypes
  import opened SnakeCase
  import opened Layout

  // ---------------------------------------------------------------------
  // Representation policy
  // ---------------------------------------------------------------------

  /**
   * The three struct layouts `print_struct` emits: `{ data: &'a [u8] }`,
   * `{ data: [u8; SIZE] }` and `{ data: &'a [u8; SIZE] }`.
   */
  datatype StructShape = BorrowedSlice | OwnedArray(len: nat) | BorrowedArray(len: nat)

  /** `print_struct`: a tail wins over `owned`. */
  function StructShapeOf(size: nat, owned: bool, hasTail: bool): (s: StructShape)
    ensures HasLifetime(s) <==> hasTail || !owned
    ensures forall data {:trigger Fits(s, data)} :: Fits(s, data) <==> hasTail || |data| == size
  {
    if hasTail then BorrowedSlice
    else if owned then OwnedArray(size)
    else BorrowedArray(size)
  }

  /** A borrowed struct carries the lifetime parameter `'a`. */
  predicate HasLifetime(s: StructShape) {
    !s.OwnedArray?
  }

  /** Whether a struct of this shape can hold exactly these bytes. */
  predicate Fits(s: StructShape, data: seq<byte>) {
    match s
    case BorrowedSlice => true
    case OwnedArray(len) => |data| == len
    case BorrowedArray(len) => |data| == len
  }

  /**
   * The three constructors `print_constructor` emits: keep the slice,
   * `clone_from_slice` into a `[0u8; SIZE]` array, or `array_ref![input, SIZE]`.
   */
  datatype Constructor = KeepSlice | CloneIntoArray(len: nat) | ArrayRef(len: nat)

  /** `print_constructor`: the same precedence as `print_struct`. */
  function ConstructorOf(size: nat, owned: bool, hasTail: bool): (c: Constructor)
    ensures forall input {:trigger New(c, input)} :: New(c, input).Some? <==> hasTail || |input| == size
  {
    if hasTail then KeepSlice
    else if owned then CloneIntoArray(size)
    else ArrayRef(size)
  }

  /** `print_struct_size`: the name of the emitted size constant. */
  function SizeConstName(hasTail: bool): (r: string)
    ensures forall size, owned :: r == "MIN_SIZE" <==> StructShapeOf(size, owned, hasTail).BorrowedSlice?
    ensures r == "MIN_SIZE" || r == "SIZE"
  {
    if hasTail then "MIN_SIZE" else "SIZE"
  }

  /** A constructed record: the bytes its accessors read. */
  datatype Record = Record(data: seq<byte>)

  /**
   * Running an emitted `new(input)`. `clone_from_slice` and `array_ref!`
   * both panic unless the input length equals `SIZE`; the tail
   * constructor checks nothing.
   */
  function New(c: Constructor, input: seq<byte>): (r: Option<Record>)
    ensures r.Some? ==> r.value.data == input
  {
    match c
    case KeepSlice => Some(Record(input))
    case CloneIntoArray(len) => if |input| == len then Some(Record(input)) else None
    case ArrayRef(len) => if |input| == len then Some(Record(input)) else None
  }

  /**
   * Calling an emitted accessor: `None` when an index falls outside the
   * record (a panic), otherwise the field's decoded value.
   */
  function Call(rec: Record, a: Accessor): (r: Option<Value>)
    ensures r.Some? ==> a.offset + Width(a.ty) <= |rec.data| && Supported(a.ty)
  {
    if a.offset + Width(a.ty) <= |rec.data| then
      match Decode(a.ty, rec.data, a.offset)
      case Ok(v) => Some(v)
      case Err(_) => None
    else None
  }

  /**
   * The constructor builds exactly what the struct can hold: it succeeds
   * precisely on the inputs that fit the chosen shape, and keeps them whole.
   */
  lemma ConstructorMatchesShape(size: nat, owned: bool, hasTail: bool, input: seq<byte>)
    ensures New(ConstructorOf(size, owned, hasTail), input).Some?
            <==> Fits(StructShapeOf(size, owned, hasTail), input)
    ensures New(ConstructorOf(size, owned, hasTail), input).Some?
            <==> (hasTail || |input| == size)
    ensures SizeConstName(hasTail) == "MIN_SIZE" <==> StructShapeOf(size, owned, hasTail).BorrowedSlice?
  {
  }

  // ---------------------------------------------------------------------
  // The impl header: as written, and corrected
  // ---------------------------------------------------------------------

  /** The impl header as `generate_table` writes it: `impl<'a> X<'a>` exactly when not owned. */
  function ImplHasLifetimeAsWritten(owned: bool, hasTail: bool): (b: bool)
    ensures forall size :: b == HasLifetime(StructShapeOf(size, owned, hasTail)) <==> !(owned && hasTail)
  {
    !owned
  }

  /** The impl header the struct declaration needs: a lifetime exactly when the struct borrows. */
  function ImplHasLifetime(owned: bool, hasTail: bool): bool {
    hasTail || !owned
  }

  /**
   * With both `owned` and `has_tail` set, the struct is declared with
   * `<'a>` but the impl block as written is not, so the emitted code would
   * not compile.
   */
  lemma ImplHeaderAsWrittenMismatch(size: nat)
    ensures HasLifetime(StructShapeOf(size, true, true))
    ensures !ImplHasLifetimeAsWritten(true, true)
  {
  }

  /** The corrected impl header always matches the struct declaration. */
  lemma ImplHeaderMatchesStruct(size: nat, owned: bool, hasTail: bool)
    ensures ImplHasLifetime(owned, hasTail) == HasLifetime(StructShapeOf(size, owned, hasTail))
  {
  }

  /** On every flag combination but that one, the correction changes nothing. */
  lemma ImplHeaderCorrectionConservative(owned: bool, hasTail: bool)
    requires !(owned && hasTail)
    ensures ImplHasLifetime(owned, hasTail) == ImplHasLifetimeAsWritten(owned, hasTail)
  {
  }

  // ---------------------------------------------------------------------
  // generate_table
  // ---------------------------------------------------------------------

  /** Everything `generate_table` emits for one record, in emission order. */
  datatype TableCode = TableCode(
    structName: string,
    shape: StructShape,
    implHasLifetime: bool,
    sizeConst: string,
    size: nat,
    ctor: Constructor,
    accessors: seq<Accessor>,
    fromData: bool)

  /** The descriptor `generate_table` produces when none of its accessors fails. */
  function TableCodeOf(table: seq<TableRow>, structName: string, owned: bool,
                       implFromData: bool, hasTail: bool): TableCode
  {
    var size := StructSize(table);
    TableCode(structName, StructShapeOf(size, owned, hasTail), ImplHasLifetime(owned, hasTail),
              SizeConstName(hasTail), size, ConstructorOf(size, owned, hasTail),
              AccessorsTo(table, PrefixLen(table)), implFromData)
  }

  /**
   * `generate_table`: size the record by summing widths up to the first
   * optional row, then walk the same prefix again emitting one accessor per
   * enabled row, disabled rows only advancing the offset. An enabled row of
   * a type without a Rust reading aborts generation.
   */
  method GenerateTable(table: seq<TableRow>, structName: string, owned: bool,
                       implFromData: bool, hasTail: bool)
    returns (r: Result<TableCode, GenError>)
    ensures r.Ok? <==> EnabledSupportedTo(table, PrefixLen(table))
    ensures r.Err? ==> r.error == NotImplemented
    ensures r.Ok? ==> r.value == TableCodeOf(table, structName, owned, implFromData, hasTail)
    ensures r.Ok? ==> r.value.structName == structName && r.value.size == StructSize(table)
                      && r.value.shape == StructShapeOf(StructSize(table), owned, hasTail)
                      && r.value.fromData == implFromData
  {
    var structSize := 0;
    var i := 0;
    while i < |table|
      invariant i <= |table|
      invariant FirstOptionalFrom(table, i) == PrefixLen(table)
      invariant structSize == SumTo(table, i)
    {
      if table[i].optional {
        break;
      }
      structSize := structSize + Width(table[i].ty);
      i := i + 1;
    }
    assert structSize == StructSize(table);

    var shape := StructShapeOf(structSize, owned, hasTail);
    var implHasLifetime := ImplHasLifetime(owned, hasTail);
    var sizeConst := SizeConstName(hasTail);
    var ctor := ConstructorOf(structSize, owned, hasTail);

    var offset := 0;
    var accessors: seq<Accessor> := [];
    var j := 0;
    while j < |table|
      invariant j <= |table|
      invariant FirstOptionalFrom(table, j) == PrefixLen(table)
      invariant offset == SumTo(table, j)
      invariant accessors == AccessorsTo(table, j)
      invariant EnabledSupportedTo(table, j)
    {
      if table[j].optional {
        break;
      }
      assert FirstOptionalFrom(table, j) == FirstOptionalFrom(table, j + 1);
      if !table[j].enable {
        assert AccessorsTo(table, j + 1) == AccessorsTo(table, j);
        offset := offset + Width(table[j].ty);
        j := j + 1;
        continue;
      }
      var rustType := ToRust(table[j].ty);
      if rustType.Err? {
        assert table[j].enable && !Supported(table[j].ty) && j < PrefixLen(table);
        EnabledSupportedToIff(table, PrefixLen(table));
        return Err(rustType.error);
      }
      assert AccessorsTo(table, j + 1) == AccessorsTo(table, j) + [RowAccessor(table, j)];
      assert RowAccessor(table, j) == Accessor(table[j].name, table[j].ty, offset);
      accessors := accessors + [Accessor(table[j].name, table[j].ty, offset)];
      offset := offset + Width(table[j].ty);
      j := j + 1;
    }

    assert j == PrefixLen(table);
    assert accessors == AccessorsTo(table, PrefixLen(table));
    r := Ok(TableCode(structName, shape, implHasLifetime, sizeConst, structSize, ctor, accessors, implFromData));
  }

  /**
   * The accessors `generate_table` emits never panic: once the constructor
   * has accepted the input (and, for a tail record, the input is at least
   * `MIN_SIZE` long), every accessor returns the decoding of its own bytes.
   */
  lemma GeneratedAccessorsNeverPanic(table: seq<TableRow>, owned: bool, hasTail: bool,
                                     input: seq<byte>)
    requires EnabledSupportedTo(table, PrefixLen(table))
    requires New(ConstructorOf(StructSize(table), owned, hasTail), input).Some?
    requires hasTail ==> StructSize(table) <= |input|
    ensures var rec := New(ConstructorOf(StructSize(table), owned, hasTail), input).value;
            forall a | a in AccessorsTo(table, PrefixLen(table)) ::
              a.offset + Width(a.ty) <= |input| && Supported(a.ty)
              && Call(rec, a) == Some(Decode(a.ty, input, a.offset).value)
  {
    var n := PrefixLen(table);
    AccessorsInBounds(table, n);
    AccessorsAreEnabledRows(table, n);
    EnabledIndicesExact(table, n);
    EnabledSupportedToIff(table, n);
    var acc := AccessorsTo(table, n);
    forall a | a in acc
      ensures Supported(a.ty)
    {
      var j :| 0 <= j < |acc| && acc[j] == a;
      var k := EnabledIndicesTo(table, n)[j];
      assert table[k].enable && a.ty == table[k].ty;
    }
  }

  /** Without the `MIN_SIZE` check, a tail record shorter than an accessor's end makes it panic. */
  lemma TailRecordNeedsMinSize(a: Accessor, input: seq<byte>)
    requires |input| < a.offset + Width(a.ty)
    ensures New(KeepSlice, input).Some?
    ensures Call(New(KeepSlice, input).value, a).None?
  {
  }

  // ---------------------------------------------------------------------
  // table_field_offset
  // ---------------------------------------------------------------------

  /** `pub const NAME_OFFSET: usize = value;` for the row called `field`. */
  datatype OffsetConst = OffsetConst(field: string, value: nat)

  /** The emitted constant's name: the field's snake-case name upper-cased, then `_OFFSET`. */
  function ConstName(c: OffsetConst): (r: string)
    ensures forall i :: 0 <= i < |r| ==> !IsLower(r[i])
    ensures |r| == |ToSnakeCase(c.field)| + 7 && r[|r| - 7..] == "_OFFSET"
    ensures Lower(r[..|r| - 7]) == ToSnakeCase(c.field)
  {
    var name := ToSnakeCase(c.field);
    UpperHasNoLower(name);
    LowerUndoesUpper(name);
    assert (Upper(name) + "_OFFSET")[..|name|] == Upper(name);
    Upper(name) + "_OFFSET"
  }

  /**
   * `table_field_offset`: the offset of the first row called `field`,
   * counting every row before it, optional and disabled ones included;
   * no row of that name is an error.
   */
  method TableFieldOffset(table: seq<TableRow>, field: string) returns (r: Result<OffsetConst, GenError>)
    ensures r.Err? <==> FindNameFrom(table, field, 0).None?
    ensures r.Err? ==> r.error == UnknownField
    ensures r.Ok? ==> r.value == OffsetConst(field, SumTo(table, FindNameFrom(table, field, 0).value))
  {
    var offset := 0;
    var i := 0;
    while i < |table|
      invariant i <= |table|
      invariant offset == SumTo(table, i)
      invariant FindNameFrom(table, field, i) == FindNameFrom(table, field, 0)
    {
      if table[i].name == field {
        return Ok(OffsetConst(table[i].name, offset));
      }
      offset := offset + Width(table[i].ty);
      i := i + 1;
    }
    return Err(UnknownField);
  }

  /**
   * For a row that also gets an accessor, the named offset constant and the
   * accessor agree on where the field lives.
   */
  lemma OffsetConstMatchesAccessor(table: seq<TableRow>, field: string)
    requires FindNameFrom(table, field, 0).Some?
    requires FindNameFrom(table, field, 0).value < PrefixLen(table)
    requires table[FindNameFrom(table, field, 0).value].enable
    ensures exists a | a in AccessorsTo(table, PrefixLen(table)) ::
              a.specName == field && a.offset == SumTo(table, FindNameFrom(table, field, 0).value)
  {
    var i := FindNameFrom(table, field, 0).value;
    var n := PrefixLen(table);
    FindNameFromIsFirst(table, field, 0);
    EnabledIndicesExact(table, n);
    AccessorsAreEnabledRows(table, n);
    var idx := EnabledIndicesTo(table, n);
    var j :| 0 <= j < |idx| && idx[j] == i;
    assert AccessorsTo(table, n)[j] == RowAccessor(table, i);
    assert AccessorsTo(table, n)[j] in AccessorsTo(table, n);
  }
}
