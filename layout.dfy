/**
 * The record layout calculator: a record schema is an ordered list of rows;
 * its fixed size is the sum of the widths of the rows before the first
 * optional one, and every row's offset is the sum of the widths of the rows
 * before it. These are the specification functions the generator's loops
 * are proved against; all of them walk the rows by index.
 */
module Layout {
  import opened Wrappers
  import opened FieldTypes
  import opened SnakeCase

  /** `TableRow(enable, ttf_type, name, optional)` */
  datatype TableRow = TableRow(enable: bool, ty: FieldType, name: string, optional: bool)

  /** One `print_method(spec_name, ttf_type, offset)` call: an accessor of the emitted struct. */
  datatype Accessor = Accessor(specName: string, ty: FieldType, offset: nat)

  /** The emitted accessor's Rust name, `to_snake_case(spec_name)`. */
  function FnName(a: Accessor): (r: string)
    ensures NoUpper(r)
  {
    ToSnakeCase(a.specName)
  }

  /** The index of the first optional row at or after `i`, or `|rows|`. */
  function FirstOptionalFrom(rows: seq<TableRow>, i: nat): (n: nat)
    requires i <= |rows|
    ensures i <= n <= |rows|
    decreases |rows| - i
  {
    if i == |rows| || rows[i].optional then i else FirstOptionalFrom(rows, i + 1)
  }

  /** How many rows precede the first optional one (all of them if none is optional). */
  function PrefixLen(rows: seq<TableRow>): (n: nat)
    ensures n <= |rows|
  {
    FirstOptionalFrom(rows, 0)
  }

  /** The sum of the widths of `rows[0..n]`: the offset of row `n`. */
  function SumTo(rows: seq<TableRow>, n: nat): nat
    requires n <= |rows|
  {
    if n == 0 then 0 else SumTo(rows, n - 1) + Width(rows[n - 1].ty)
  }

  /** `struct_size`: the summed widths of the rows before the first optional row. */
  function StructSize(rows: seq<TableRow>): nat {
    SumTo(rows, PrefixLen(rows))
  }

  /** The accessor row `i` gets: its name, its type, its offset. */
  function RowAccessor(rows: seq<TableRow>, i: nat): Accessor
    requires i < |rows|
  {
    Accessor(rows[i].name, rows[i].ty, SumTo(rows, i))
  }

  /** The accessors of the enabled rows among `rows[0..n]`, in row order. */
  function AccessorsTo(rows: seq<TableRow>, n: nat): seq<Accessor>
    requires n <= |rows|
  {
    if n == 0 then []
    else AccessorsTo(rows, n - 1) + (if rows[n - 1].enable then [RowAccessor(rows, n - 1)] else [])
  }

  /** The indices of the enabled rows among `rows[0..n]`, in increasing order. */
  function EnabledIndicesTo(rows: seq<TableRow>, n: nat): seq<nat>
    requires n <= |rows|
  {
    if n == 0 then []
    else EnabledIndicesTo(rows, n - 1) + (if rows[n - 1].enable then [n - 1] else [])
  }

  /** Every enabled row among `rows[0..n]` has a type an accessor can read. */
  predicate EnabledSupportedTo(rows: seq<TableRow>, n: nat)
    requires n <= |rows|
  {
    n == 0 || (EnabledSupportedTo(rows, n - 1) && (rows[n - 1].enable ==> Supported(rows[n - 1].ty)))
  }

  /** The index of the first row at or after `i` called `name`. */
  function FindNameFrom(rows: seq<TableRow>, name: string, i: nat): (r: Option<nat>)
    requires i <= |rows|
    ensures r.Some? ==> i <= r.value < |rows|
    decreases |rows| - i
  {
    if i == |rows| then None
    else if rows[i].name == name then Some(i)
    else FindNameFrom(rows, name, i + 1)
  }

  // ---------------------------------------------------------------------
  // The prefix boundary
  // ---------------------------------------------------------------------

  lemma {:induction false} FirstOptionalFromIsFirst(rows: seq<TableRow>, i: nat)
    requires i <= |rows|
    ensures var n := FirstOptionalFrom(rows, i);
            (forall k :: i <= k < n ==> !rows[k].optional) && (n < |rows| ==> rows[n].optional)
    decreases |rows| - i
  {
    if i < |rows| && !rows[i].optional {
      FirstOptionalFromIsFirst(rows, i + 1);
    }
  }

  /** PrefixLen is the index of the first optional row, or the length when none is. */
  lemma PrefixLenIsFirstOptional(rows: seq<TableRow>)
    ensures forall k :: 0 <= k < PrefixLen(rows) ==> !rows[k].optional
    ensures PrefixLen(rows) < |rows| ==> rows[PrefixLen(rows)].optional
  {
    FirstOptionalFromIsFirst(rows, 0);
  }

  /** Any index whose predecessors are all non-optional and which is optional or the end is PrefixLen. */
  lemma PrefixLenUnique(rows: seq<TableRow>, n: nat)
    requires n <= |rows|
    requires forall k :: 0 <= k < n ==> !rows[k].optional
    requires n < |rows| ==> rows[n].optional
    ensures PrefixLen(rows) == n
  {
    PrefixLenIsFirstOptional(rows);
  }

  /** Without an optional row the fixed size is the full layout width. */
  lemma StructSizeWithoutOptional(rows: seq<TableRow>)
    requires forall k :: 0 <= k < |rows| ==> !rows[k].optional
    ensures StructSize(rows) == SumTo(rows, |rows|)
  {
    PrefixLenUnique(rows, |rows|);
  }

  // ---------------------------------------------------------------------
  // Offsets
  // ---------------------------------------------------------------------

  /** Each row starts after every earlier row has ended: offsets strictly increase. */
  lemma {:induction false} OffsetsIncrease(rows: seq<TableRow>, i: nat, j: nat)
    requires i < j <= |rows|
    ensures SumTo(rows, i) + Width(rows[i].ty) <= SumTo(rows, j)
    ensures SumTo(rows, i) < SumTo(rows, j)
  {
    if j > i + 1 {
      OffsetsIncrease(rows, i, j - 1);
    }
  }

  /** Offsets only depend on the types of the rows before. */
  lemma {:induction false} SumToDependsOnPrefix(a: seq<TableRow>, b: seq<TableRow>, n: nat)
    requires n <= |a| && n <= |b|
    requires forall k :: 0 <= k < n ==> a[k].ty == b[k].ty
    ensures SumTo(a, n) == SumTo(b, n)
  {
    if n > 0 {
      SumToDependsOnPrefix(a, b, n - 1);
    }
  }

  /**
   * Rows after the first optional row take no part in the fixed size:
   * two schemas that agree up to and including it have the same size.
   */
  lemma StructSizeIgnoresTail(a: seq<TableRow>, b: seq<TableRow>)
    requires PrefixLen(a) < |a| && PrefixLen(a) < |b|
    requires forall k :: 0 <= k <= PrefixLen(a) ==> a[k] == b[k]
    ensures PrefixLen(b) == PrefixLen(a)
    ensures StructSize(b) == StructSize(a)
  {
    PrefixLenIsFirstOptional(a);
    PrefixLenUnique(b, PrefixLen(a));
    SumToDependsOnPrefix(a, b, PrefixLen(a));
  }

  // ---------------------------------------------------------------------
  // Accessors
  // ---------------------------------------------------------------------

  /** The enabled indices are exactly the enabled rows before `n`, increasing. */
  lemma {:induction false} EnabledIndicesExact(rows: seq<TableRow>, n: nat)
    requires n <= |rows|
    ensures var idx := EnabledIndicesTo(rows, n);
            (forall j :: 0 <= j < |idx| ==> idx[j] < n && rows[idx[j]].enable)
            && (forall j, j' :: 0 <= j < j' < |idx| ==> idx[j] < idx[j'])
            && (forall k :: 0 <= k < n && rows[k].enable ==> k in idx)
  {
    if n > 0 {
      EnabledIndicesExact(rows, n - 1);
    }
  }

  /** Accessor `j` is the accessor of the `j`-th enabled row, at that row's offset. */
  lemma {:induction false} AccessorsAreEnabledRows(rows: seq<TableRow>, n: nat)
    requires n <= |rows|
    ensures |AccessorsTo(rows, n)| == |EnabledIndicesTo(rows, n)|
    ensures forall j :: 0 <= j < |AccessorsTo(rows, n)| ==>
              EnabledIndicesTo(rows, n)[j] < |rows|
              && AccessorsTo(rows, n)[j] == RowAccessor(rows, EnabledIndicesTo(rows, n)[j])
  {
    if n > 0 {
      AccessorsAreEnabledRows(rows, n - 1);
    }
  }

  /** Every accessor reads inside the first `SumTo(rows, n)` bytes. */
  lemma {:induction false} AccessorsInBounds(rows: seq<TableRow>, n: nat)
    requires n <= |rows|
    ensures forall a | a in AccessorsTo(rows, n) :: a.offset + Width(a.ty) <= SumTo(rows, n)
  {
    if n > 0 {
      AccessorsInBounds(rows, n - 1);
      if rows[n - 1].enable {
        assert AccessorsTo(rows, n) == AccessorsTo(rows, n - 1) + [RowAccessor(rows, n - 1)];
      }
    }
  }

  /** Each accessor's byte range ends at or before the next one begins. */
  predicate Ordered(acc: seq<Accessor>) {
    forall j :: 0 <= j < |acc| - 1 ==> acc[j].offset + Width(acc[j].ty) <= acc[j + 1].offset
  }

  /** The accessors' byte ranges follow one another in schema order without overlapping. */
  lemma {:induction false} AccessorsOrdered(rows: seq<TableRow>, n: nat)
    requires n <= |rows|
    ensures Ordered(AccessorsTo(rows, n))
  {
    if n > 0 {
      AccessorsOrdered(rows, n - 1);
      var prev := AccessorsTo(rows, n - 1);
      var acc := AccessorsTo(rows, n);
      if rows[n - 1].enable {
        assert acc == prev + [RowAccessor(rows, n - 1)];
        AccessorsInBounds(rows, n - 1);
        forall j | 0 <= j < |acc| - 1
          ensures acc[j].offset + Width(acc[j].ty) <= acc[j + 1].offset
        {
          if j == |prev| - 1 {
            assert prev[j] in prev;
          } else {
            assert acc[j] == prev[j] && acc[j + 1] == prev[j + 1];
          }
        }
      } else {
        assert acc == prev + [];
      }
    }
  }

  /** EnabledSupportedTo is the universally quantified statement it abbreviates. */
  lemma {:induction false} EnabledSupportedToIff(rows: seq<TableRow>, n: nat)
    requires n <= |rows|
    ensures EnabledSupportedTo(rows, n)
            <==> forall k :: 0 <= k < n && rows[k].enable ==> Supported(rows[k].ty)
  {
    if n > 0 {
      EnabledSupportedToIff(rows, n - 1);
    }
  }

  // ---------------------------------------------------------------------
  // Named offsets
  // ---------------------------------------------------------------------

  /** FindNameFrom finds the first row with the name, and fails only when none has it. */
  lemma {:induction false} FindNameFromIsFirst(rows: seq<TableRow>, name: string, i: nat)
    requires i <= |rows|
    ensures var r := FindNameFrom(rows, name, i);
            (r.None? ==> forall k :: i <= k < |rows| ==> rows[k].name != name)
            && (r.Some? ==> i <= r.value < |rows| && rows[r.value].name == name
                            && forall k :: i <= k < r.value ==> rows[k].name != name)
    decreases |rows| - i
  {
    if i < |rows| && rows[i].name != name {
      FindNameFromIsFirst(rows, name, i + 1);
    }
  }
}
