/** Scanning rows into structs, as `scanRow` and `scanRows` in
    `engine/core.go` do through reflection.

    A Go type is a small datatype; a struct is its fields in declaration
    order, each with the value of its `db` tag ("" when it has none). A
    record (the value of a struct) holds one value per field: the field's
    zero value, or the value the driver stored into it from a cell. The
    driver's conversion of a cell into a field is the parameter `convert`,
    which answers the error it fails with, if any. */
module RowScan {
  import opened Types
  import opened Binding

  datatype GoType =
    | Ptr(elem: GoType)
    | Slice(elem: GoType)
    | Struct(fields: seq<Field>)
    | Basic(name: string)

  datatype Field = Field(tag: string, typ: GoType)

  datatype Kind = PtrKind | SliceKind | StructKind | OtherKind(name: string)

  function KindOf(t: GoType): Kind {
    match t
    case Ptr(_) => PtrKind
    case Slice(_) => SliceKind
    case Struct(_) => StructKind
    case Basic(name) => OtherKind(name)
  }

  /** How `reflect.Kind` prints. */
  function KindName(k: Kind): string {
    match k
    case PtrKind => "ptr"
    case SliceKind => "slice"
    case StructKind => "struct"
    case OtherKind(name) => name
  }

  // ------------------------------------------------------------ type checks

  /** `deRefType`: strips one pointer level, and only one. */
  function DeRefType(t: GoType): (r: GoType)
    ensures t.Ptr? ==> r == t.elem
    ensures !t.Ptr? ==> r == t
  {
    if t.Ptr? then t.elem else t
  }

  /** A pointer to a pointer keeps one pointer level after `deRefType`. */
  lemma DeRefTypeStripsOne(t: GoType)
    ensures DeRefType(Ptr(Ptr(t))) == Ptr(t)
    ensures DeRefType(DeRefType(Ptr(Ptr(t)))) == t
  {
  }

  /** `detectBaseType(t, expected)`: the dereferenced type when its kind is
      the expected one, an error naming both kinds otherwise. */
  function DetectBaseType(t: GoType, expected: Kind): (r: Result<GoType>)
    ensures r.Ok? <==> KindOf(DeRefType(t)) == expected
    ensures r.Ok? ==> r.value == DeRefType(t)
    ensures r.Err? ==> r.error == KindMismatch(KindName(expected), KindName(KindOf(DeRefType(t))))
  {
    var d := DeRefType(t);
    if KindOf(d) != expected then Err(KindMismatch(KindName(expected), KindName(KindOf(d))))
    else Ok(d)
  }

  /** `checkScanRowType`: only a pointer to a struct is accepted. */
  function CheckScanRowType(t: GoType): (r: Option<Error>)
    ensures r.None? <==> t.Ptr? && t.elem.Struct?
    ensures !t.Ptr? ==> r == Some(NotPointer)
    ensures t.Ptr? && !t.elem.Struct? ==> r == Some(NotPointerToStruct)
  {
    if !t.Ptr? then Some(NotPointer)
    else if !t.elem.Struct? then Some(NotPointerToStruct)
    else None
  }

  /** The shapes `scanRows` accepts: `*[]S` and `*[]*S` for a struct S. */
  predicate RowsShape(t: GoType) {
    && t.Ptr?
    && t.elem.Slice?
    && (t.elem.elem.Struct? || (t.elem.elem.Ptr? && t.elem.elem.elem.Struct?))
  }

  /** `checkScanRowsType`. */
  function CheckScanRowsType(t: GoType): (r: Option<Error>)
    ensures r.None? <==> RowsShape(t)
    ensures !t.Ptr? ==> r == Some(NotPointer)
    ensures t.Ptr? && !t.elem.Slice? ==> r == Some(NotPointerToSlice)
    ensures t.Ptr? && t.elem.Slice? && !RowsShape(t) ==> r == Some(BadSliceItem)
  {
    if !t.Ptr? then Some(NotPointer)
    else if !t.elem.Slice? then Some(NotPointerToSlice)
    else if t.elem.elem.Ptr? then
      if !t.elem.elem.elem.Struct? then Some(BadSliceItem) else None
    else
      if !t.elem.elem.Struct? then Some(BadSliceItem) else None
  }

  /** After a passed check, `detectBaseType` cannot fail and `deRefType`
      yields the struct: the error paths after the check are dead. */
  lemma CheckedRowType(t: GoType)
    requires CheckScanRowType(t).None?
    ensures DetectBaseType(t, StructKind) == Ok(t.elem)
    ensures DeRefType(DetectBaseType(t, StructKind).value).Struct?
  {
  }

  lemma CheckedRowsType(t: GoType)
    requires CheckScanRowsType(t).None?
    ensures DetectBaseType(t, SliceKind) == Ok(t.elem)
    ensures DeRefType(t.elem.elem).Struct?
    ensures KindOf(t.elem.elem) == PtrKind <==> t.elem.elem.Ptr?
  {
  }

  // ------------------------------------------------------------ choosing fields

  /** Where the value of a column goes: a field of the record, or the
      shared discard buffer `tmpVar`. */
  datatype Target = FieldAt(index: nat) | Sink

  /** The loop of `chooseReflectField` from field `i` on. */
  function ChooseFrom(fields: seq<Field>, column: string, i: nat): (r: Target)
    requires i <= |fields|
    ensures r.FieldAt? ==>
      && i <= r.index < |fields|
      && fields[r.index].tag == column
      && forall k :: i <= k < r.index ==> fields[k].tag != column
    ensures r.Sink? <==> forall k :: i <= k < |fields| ==> fields[k].tag != column
    decreases |fields| - i
  {
    if i == |fields| then Sink
    else if fields[i].tag == column then FieldAt(i)
    else ChooseFrom(fields, column, i + 1)
  }

  /** `chooseReflectField(val, column)`: the first field in declaration
      order whose `db` tag is the column, otherwise the sink. It never
      fails. */
  function ChooseReflectField(fields: seq<Field>, column: string): (r: Target)
    ensures r.FieldAt? ==>
      && r.index < |fields|
      && fields[r.index].tag == column
      && forall k :: 0 <= k < r.index ==> fields[k].tag != column
    ensures r.Sink? <==> forall k :: 0 <= k < |fields| ==> fields[k].tag != column
  {
    ChooseFrom(fields, column, 0)
  }

  /** Every target of a row names a field that exists. */
  predicate ValidTargets(targets: seq<Target>, n: nat) {
    forall i :: 0 <= i < |targets| && targets[i].FieldAt? ==> targets[i].index < n
  }

  /** The targets of a row of columns. */
  function ColumnTargets(fields: seq<Field>, columns: seq<string>): (targets: seq<Target>)
    ensures |targets| == |columns|
    ensures forall i :: 0 <= i < |columns| ==> targets[i] == ChooseReflectField(fields, columns[i])
    ensures ValidTargets(targets, |fields|)
  {
    seq(|columns|, i requires 0 <= i < |columns| => ChooseReflectField(fields, columns[i]))
  }

  /** `makeReflectRow(val, columns)`: one target per column, in column
      order. */
  method MakeReflectRow(fields: seq<Field>, columns: seq<string>) returns (targets: seq<Target>)
    ensures |targets| == |columns|
    ensures forall i :: 0 <= i < |columns| ==> targets[i] == ChooseReflectField(fields, columns[i])
    ensures ValidTargets(targets, |fields|)
  {
    var a := new Target[|columns|](_ => Sink);
    for i := 0 to |columns|
      invariant forall k :: 0 <= k < i ==> a[k] == ChooseReflectField(fields, columns[k])
    {
      a[i] := ChooseReflectField(fields, columns[i]);
    }
    targets := a[..];
  }

  // ------------------------------------------------------------ scanning one row

  /** The value of one field of a record: its zero value, or what the
      driver stored into it from a cell. */
  datatype Value = ZeroOf(typ: GoType) | Scanned(cell: Cell, typ: GoType)

  /** `reflect.New(base)`: the record of a struct with every field zero. */
  function ZeroRecord(fields: seq<Field>): (rec: seq<Value>)
    ensures |rec| == |fields| && forall j :: 0 <= j < |fields| ==> rec[j] == ZeroOf(fields[j].typ)
  {
    seq(|fields|, j requires 0 <= j < |fields| => ZeroOf(fields[j].typ))
  }

  /** `rows.Scan(targets...)` once the counts agree: left to right, each
      cell goes to its target, stopping at the first failing conversion.
      The sink takes any cell. */
  function ScanFrom(rec: seq<Value>, fields: seq<Field>, targets: seq<Target>, cells: seq<Cell>,
                    convert: (Cell, GoType) -> Option<Error>): (r: Result<seq<Value>>)
    requires |rec| == |fields| && |targets| == |cells| && ValidTargets(targets, |fields|)
    ensures r.Ok? ==> |r.value| == |fields|
    decreases |targets|
  {
    if targets == [] then Ok(rec)
    else
      match targets[0]
      case Sink => ScanFrom(rec, fields, targets[1..], cells[1..], convert)
      case FieldAt(j) =>
        var typ := fields[j].typ;
        if convert(cells[0], typ).Some? then Err(convert(cells[0], typ).value)
        else ScanFrom(rec[j := Scanned(cells[0], typ)], fields, targets[1..], cells[1..], convert)
  }

  /** `rows.Scan(targets...)` into a fresh record: the number of targets
      must equal the number of cells. */
  function ScanRecord(fields: seq<Field>, targets: seq<Target>, cells: seq<Cell>,
                      convert: (Cell, GoType) -> Option<Error>): (r: Result<seq<Value>>)
    requires ValidTargets(targets, |fields|)
    ensures |targets| != |cells| ==> r == Err(DestinationCount(|cells|, |targets|))
    ensures r.Ok? ==> |r.value| == |fields|
  {
    if |targets| != |cells| then Err(DestinationCount(|cells|, |targets|))
    else ScanFrom(ZeroRecord(fields), fields, targets, cells, convert)
  }

  /** A scan fails exactly when some cell bound for a field does not
      convert, and then with the error of such a cell. */
  lemma {:induction false} ScanFromFails(rec: seq<Value>, fields: seq<Field>, targets: seq<Target>, cells: seq<Cell>,
                                         convert: (Cell, GoType) -> Option<Error>)
    requires |rec| == |fields| && |targets| == |cells| && ValidTargets(targets, |fields|)
    ensures var r := ScanFrom(rec, fields, targets, cells, convert);
      r.Err? <==> exists i :: 0 <= i < |targets| && targets[i].FieldAt?
                              && convert(cells[i], fields[targets[i].index].typ).Some?
    ensures var r := ScanFrom(rec, fields, targets, cells, convert);
      r.Err? ==> exists i :: 0 <= i < |targets| && targets[i].FieldAt?
                             && convert(cells[i], fields[targets[i].index].typ) == Some(r.error)
    decreases |targets|
  {
    if targets != [] {
      var rec' := if targets[0].Sink? then rec else rec[targets[0].index := Scanned(cells[0], fields[targets[0].index].typ)];
      ScanFromFails(rec', fields, targets[1..], cells[1..], convert);
      forall i | 0 <= i < |targets[1..]|
        ensures targets[1..][i] == targets[i + 1] && cells[1..][i] == cells[i + 1]
      {
      }
    }
  }

  /** A field no column is bound to keeps its value. */
  lemma {:induction false} ScanFromUntouched(rec: seq<Value>, fields: seq<Field>, targets: seq<Target>, cells: seq<Cell>,
                                             convert: (Cell, GoType) -> Option<Error>, j: nat)
    requires |rec| == |fields| && |targets| == |cells| && ValidTargets(targets, |fields|)
    requires j < |fields| && forall i :: 0 <= i < |targets| ==> targets[i] != FieldAt(j)
    requires ScanFrom(rec, fields, targets, cells, convert).Ok?
    ensures ScanFrom(rec, fields, targets, cells, convert).value[j] == rec[j]
    decreases |targets|
  {
    if targets != [] {
      var rec' := if targets[0].Sink? then rec else rec[targets[0].index := Scanned(cells[0], fields[targets[0].index].typ)];
      ScanFromUntouched(rec', fields, targets[1..], cells[1..], convert, j);
    }
  }

  /** When several columns are bound to one field, the last one wins. */
  lemma {:induction false} ScanFromLastWins(rec: seq<Value>, fields: seq<Field>, targets: seq<Target>, cells: seq<Cell>,
                                            convert: (Cell, GoType) -> Option<Error>, i: nat)
    requires |rec| == |fields| && |targets| == |cells| && ValidTargets(targets, |fields|)
    requires i < |targets| && targets[i].FieldAt?
    requires forall k :: i < k < |targets| ==> targets[k] != targets[i]
    requires ScanFrom(rec, fields, targets, cells, convert).Ok?
    ensures ScanFrom(rec, fields, targets, cells, convert).value[targets[i].index]
         == Scanned(cells[i], fields[targets[i].index].typ)
    decreases |targets|
  {
    var rec' := if targets[0].Sink? then rec else rec[targets[0].index := Scanned(cells[0], fields[targets[0].index].typ)];
    if i == 0 {
      ScanFromUntouched(rec', fields, targets[1..], cells[1..], convert, targets[0].index);
    } else {
      assert forall k :: i - 1 < k < |targets[1..]| ==> targets[1..][k] != targets[1..][i - 1];
      ScanFromLastWins(rec', fields, targets[1..], cells[1..], convert, i - 1);
    }
  }

  /** End to end for one record: the field a column is matched to holds
      the cell of the last column of that name. */
  lemma ScanRecordMatched(fields: seq<Field>, cols: seq<string>, cells: seq<Cell>,
                          convert: (Cell, GoType) -> Option<Error>, i: nat)
    requires |cells| == |cols| && i < |cols|
    requires ChooseReflectField(fields, cols[i]).FieldAt?
    requires forall k :: i < k < |cols| ==> cols[k] != cols[i]
    requires ScanRecord(fields, ColumnTargets(fields, cols), cells, convert).Ok?
    ensures var j := ChooseReflectField(fields, cols[i]).index;
      ScanRecord(fields, ColumnTargets(fields, cols), cells, convert).value[j] == Scanned(cells[i], fields[j].typ)
  {
    var targets := ColumnTargets(fields, cols);
    ScanFromLastWins(ZeroRecord(fields), fields, targets, cells, convert, i);
  }

  /** A field whose tag names no column keeps its zero value. */
  lemma ScanRecordUnmatched(fields: seq<Field>, cols: seq<string>, cells: seq<Cell>,
                            convert: (Cell, GoType) -> Option<Error>, j: nat)
    requires |cells| == |cols| && j < |fields|
    requires forall k :: 0 <= k < |cols| ==> cols[k] != fields[j].tag
    requires ScanRecord(fields, ColumnTargets(fields, cols), cells, convert).Ok?
    ensures ScanRecord(fields, ColumnTargets(fields, cols), cells, convert).value[j] == ZeroOf(fields[j].typ)
  {
    ScanFromUntouched(ZeroRecord(fields), fields, ColumnTargets(fields, cols), cells, convert, j);
  }

  // ------------------------------------------------------------ destinations

  /** The record `scanRow` answers: exactly one row, scanned without error. */
  function ScanRowResult(typ: GoType, rs: ResultSet, convert: (Cell, GoType) -> Option<Error>): (r: Result<seq<Value>>)
    ensures CheckScanRowType(typ).Some? ==> r == Err(CheckScanRowType(typ).value)
    ensures CheckScanRowType(typ).None? && rs.columns.Err? ==> r == Err(rs.columns.error)
    ensures CheckScanRowType(typ).None? && rs.columns.Ok? && rs.rows == [] ==> r == Err(rs.err.GetOr(NotGotRecord))
    ensures r.Ok? ==>
      && typ.Ptr? && typ.elem.Struct? && rs.columns.Ok? && |rs.rows| == 1 && |r.value| == |typ.elem.fields|
      && ScanRecord(typ.elem.fields, ColumnTargets(typ.elem.fields, rs.columns.value), rs.rows[0], convert) == Ok(r.value)
  {
    if CheckScanRowType(typ).Some? then Err(CheckScanRowType(typ).value)
    else if rs.columns.Err? then Err(rs.columns.error)
    else if rs.rows == [] then Err(rs.err.GetOr(NotGotRecord))
    else
      var fields := typ.elem.fields;
      var targets := ColumnTargets(fields, rs.columns.value);
      match ScanRecord(fields, targets, rs.rows[0], convert)
      case Err(e) => Err(e)
      case Ok(rec) => if |rs.rows| > 1 then Err(MoreThanOneRecord) else Ok(rec)
  }

  /** With columns and at least one row, `scanRow` scans the first row
      into a fresh record: a scan error is returned as it is, even when
      more rows follow; a scanned record is the answer only when there is
      no second row, and otherwise ERR_MORE_THAN_ONE_RECORD. */
  lemma ScanRowCounts(fs: seq<Field>, rs: ResultSet, convert: (Cell, GoType) -> Option<Error>)
    requires rs.columns.Ok? && |rs.rows| >= 1
    ensures var rec := ScanRecord(fs, ColumnTargets(fs, rs.columns.value), rs.rows[0], convert);
      ScanRowResult(Ptr(Struct(fs)), rs, convert)
        == if rec.Err? then Err(rec.error)
           else if |rs.rows| > 1 then Err(MoreThanOneRecord)
           else Ok(rec.value)
  {
  }

  /** With a single row whose cells all convert, `scanRow` succeeds; with
      a second row it fails with ERR_MORE_THAN_ONE_RECORD. */
  lemma ScanRowConvertible(fs: seq<Field>, rs: ResultSet, convert: (Cell, GoType) -> Option<Error>)
    requires rs.columns.Ok? && |rs.rows| >= 1
    requires |rs.rows[0]| == |rs.columns.value|
    requires forall c, t :: convert(c, t).None?
    ensures |rs.rows| == 1 ==> ScanRowResult(Ptr(Struct(fs)), rs, convert).Ok?
    ensures |rs.rows| > 1 ==> ScanRowResult(Ptr(Struct(fs)), rs, convert) == Err(MoreThanOneRecord)
  {
    var cols := rs.columns.value;
    var targets := ColumnTargets(fs, cols);
    ScanFromFails(ZeroRecord(fs), fs, targets, rs.rows[0], convert);
    assert ScanRecord(fs, targets, rs.rows[0], convert).Ok?;
  }

  /** A `*S` destination: the record it points to. */
  class RowDest {
    const typ: GoType
    var record: seq<Value>

    constructor (typ: GoType, record: seq<Value>)
      ensures this.typ == typ && this.record == record
    {
      this.typ := typ;
      this.record := record;
    }
  }

  /** `scanRow(dest, rows)`: the destination is written only when the
      answer is exactly one row. */
  method ScanRow(dest: RowDest, rs: ResultSet, convert: (Cell, GoType) -> Option<Error>) returns (err: Option<Error>)
    modifies dest
    ensures var r := ScanRowResult(dest.typ, rs, convert);
      && (r.Err? ==> err == Some(r.error) && dest.record == old(dest.record))
      && (r.Ok? ==> err.None? && dest.record == r.value)
  {
    err := CheckScanRowType(dest.typ);
    if err.Some? {
      return;
    }
    var structType := DetectBaseType(dest.typ, StructKind);
    if structType.Err? {
      assert false;
    }
    var base := DeRefType(structType.value);
    if rs.columns.Err? {
      return Some(rs.columns.error);
    }
    var columns := rs.columns.value;
    if |rs.rows| == 0 {
      if rs.err.Some? {
        return rs.err;
      }
      return Some(NotGotRecord);
    }
    var fields := MakeReflectRow(base.fields, columns);
    assert fields == ColumnTargets(base.fields, columns);
    var scanned := ScanRecord(base.fields, fields, rs.rows[0], convert);
    if scanned.Err? {
      return Some(scanned.error);
    }
    if |rs.rows| > 1 {
      return Some(MoreThanOneRecord);
    }
    dest.record := scanned.value;
  }

  /** An element of a destination slice: a struct, or a pointer to a
      freshly allocated one. */
  datatype Elem = Inline(record: seq<Value>) | Boxed(record: seq<Value>)

  function ElemOf(isPtr: bool, rec: seq<Value>): (e: Elem)
    ensures e.record == rec && (e.Boxed? <==> isPtr)
  {
    if isPtr then Boxed(rec) else Inline(rec)
  }

  /** The elements `scanRows` appends for `rows`, and the error it stops
      with, if any. */
  function AppendRows(fields: seq<Field>, targets: seq<Target>, rows: seq<seq<Cell>>, isPtr: bool,
                      convert: (Cell, GoType) -> Option<Error>): (r: (seq<Elem>, Option<Error>))
    requires ValidTargets(targets, |fields|)
    ensures |r.0| <= |rows|
    decreases |rows|
  {
    if rows == [] then ([], None)
    else match ScanRecord(fields, targets, rows[0], convert)
      case Err(e) => ([], Some(e))
      case Ok(rec) =>
        var rest := AppendRows(fields, targets, rows[1..], isPtr, convert);
        ([ElemOf(isPtr, rec)] + rest.0, rest.1)
  }

  /** One element per row in row order, each the row's record, boxed
      exactly when the slice holds pointers; a failing row stops the
      appending with its error, keeping the rows before it. */
  lemma {:induction false} AppendRowsSpec(fields: seq<Field>, targets: seq<Target>, rows: seq<seq<Cell>>, isPtr: bool,
                                          convert: (Cell, GoType) -> Option<Error>)
    requires ValidTargets(targets, |fields|)
    ensures var (added, err) := AppendRows(fields, targets, rows, isPtr, convert);
      && (forall i :: 0 <= i < |added| ==>
            && ScanRecord(fields, targets, rows[i], convert).Ok?
            && added[i] == ElemOf(isPtr, ScanRecord(fields, targets, rows[i], convert).value))
      && (err.None? <==> |added| == |rows|)
      && (err.Some? ==> ScanRecord(fields, targets, rows[|added|], convert) == Err(err.value))
    decreases |rows|
  {
    if rows != [] {
      AppendRowsSpec(fields, targets, rows[1..], isPtr, convert);
    }
  }

  /** One step of AppendRows from row `i`. */
  lemma AppendRowsAt(fields: seq<Field>, targets: seq<Target>, rows: seq<seq<Cell>>, isPtr: bool,
                     convert: (Cell, GoType) -> Option<Error>, i: nat)
    requires ValidTargets(targets, |fields|) && i < |rows|
    ensures var r := ScanRecord(fields, targets, rows[i], convert);
      && (r.Err? ==> AppendRows(fields, targets, rows[i..], isPtr, convert) == ([], Some(r.error)))
      && (r.Ok? ==>
            var rest := AppendRows(fields, targets, rows[i + 1..], isPtr, convert);
            AppendRows(fields, targets, rows[i..], isPtr, convert) == ([ElemOf(isPtr, r.value)] + rest.0, rest.1))
  {
    assert rows[i..][0] == rows[i] && rows[i..][1..] == rows[i + 1..];
  }

  /** A `*[]S` or `*[]*S` destination: the elements of the slice. */
  class RowsDest {
    const typ: GoType
    var elems: seq<Elem>

    constructor (typ: GoType, elems: seq<Elem>)
      ensures this.typ == typ && this.elems == elems
    {
      this.typ := typ;
      this.elems := elems;
    }
  }

  /** The columns `scanRows` works with: it does not look at the error of
      `rows.Columns()`, and goes on with no columns. */
  function ScanColumns(rs: ResultSet): (cols: seq<string>)
    ensures rs.columns.Ok? ==> cols == rs.columns.value
    ensures rs.columns.Err? ==> cols == []
  {
    if rs.columns.Ok? then rs.columns.value else []
  }

  /** What `scanRows` appends to a destination of type `typ` whose check
      passed. */
  function ScanRowsResult(typ: GoType, rs: ResultSet, convert: (Cell, GoType) -> Option<Error>): (r: (seq<Elem>, Option<Error>))
    requires RowsShape(typ)
  {
    var fields := DeRefType(typ.elem.elem).fields;
    var cols := ScanColumns(rs);
    var targets := ColumnTargets(fields, cols);
    AppendRows(fields, targets, rs.rows, typ.elem.elem.Ptr?, convert)
  }

  /** `scanRows(dest, rows)`: the elements for the rows are appended after
      the existing ones; the error ending the iteration is not looked at. */
  method ScanRows(dest: RowsDest, rs: ResultSet, convert: (Cell, GoType) -> Option<Error>) returns (err: Option<Error>)
    modifies dest
    ensures CheckScanRowsType(dest.typ).Some? ==> err == CheckScanRowsType(dest.typ) && dest.elems == old(dest.elems)
    ensures CheckScanRowsType(dest.typ).None? ==>
      var (added, e) := ScanRowsResult(dest.typ, rs, convert);
      dest.elems == old(dest.elems) + added && err == e
  {
    err := CheckScanRowsType(dest.typ);
    if err.Some? {
      return;
    }
    var slice := DetectBaseType(dest.typ, SliceKind);
    if slice.Err? {
      assert false;
    }
    var isPtr := KindOf(slice.value.elem) == PtrKind;
    var base := DeRefType(slice.value.elem);
    var columns := ScanColumns(rs);
    ghost var targets := ColumnTargets(base.fields, columns);
    ghost var all := AppendRows(base.fields, targets, rs.rows, isPtr, convert);
    assert ScanRowsResult(dest.typ, rs, convert) == all;
    var i := 0;
    while i < |rs.rows|
      invariant 0 <= i <= |rs.rows|
      invariant ValidTargets(targets, |base.fields|)
      invariant var rest := AppendRows(base.fields, targets, rs.rows[i..], isPtr, convert);
        dest.elems + rest.0 == old(dest.elems) + all.0 && rest.1 == all.1
    {
      var fields := MakeReflectRow(base.fields, columns);
      assert fields == targets;
      AppendRowsAt(base.fields, targets, rs.rows, isPtr, convert, i);
      var scanned := ScanRecord(base.fields, fields, rs.rows[i], convert);
      if scanned.Err? {
        return Some(scanned.error);
      }
      ghost var rest := AppendRows(base.fields, targets, rs.rows[i + 1..], isPtr, convert);
      assert dest.elems + [ElemOf(isPtr, scanned.value)] + rest.0 == dest.elems + ([ElemOf(isPtr, scanned.value)] + rest.0);
      dest.elems := dest.elems + [ElemOf(isPtr, scanned.value)];
      i := i + 1;
    }
    return None;
  }
}
