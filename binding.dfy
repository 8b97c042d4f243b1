/** Turning query results into maps: the `[]interface{}` rows of `*[]byte`
    buffers the engine scans into, and the conversion of those rows into
    one column -> value map per row. */
module Binding {
  import opened Types

  /** A database cell as the driver delivers it: NULL or its bytes. */
  type Cell = Option<seq<byte>>

  /** What a query answers: the column names (or the error of
      `rows.Columns()`), the rows in order, and the error that ended the
      iteration early, which `rows.Err()` reports. */
  datatype ResultSet = ResultSet(columns: Result<seq<string>>, rows: seq<seq<Cell>>, err: Option<Error>)

  /** One element of an `[]interface{}` row: a nil interface, or a pointer
      to a `[]byte` buffer; a buffer holding a nil slice stands for NULL. */
  datatype Slot = Nil | Buffer(content: Cell)

  /** `&[]byte{}`: a buffer holding an empty, non-nil slice. */
  const EmptyBuffer := Buffer(Some([]))

  /** `makeEmptyRow(n)`: n fresh empty buffers. */
  method MakeEmptyRow(n: nat) returns (row: seq<Slot>)
    ensures |row| == n
    ensures forall i :: 0 <= i < n ==> row[i] == EmptyBuffer
  {
    var a := new Slot[n](_ => Nil);
    for i := 0 to n
      invariant forall k :: 0 <= k < i ==> a[k] == EmptyBuffer
    {
      a[i] := EmptyBuffer;
    }
    row := a[..];
  }

  /** `rows.Scan(dest...)` with every destination a `*[]byte`: the number
      of destinations must equal the number of cells, and then each buffer
      receives its cell, NULL as a nil slice. */
  function ScanBuffers(dest: seq<Slot>, cells: seq<Cell>): (r: Result<seq<Slot>>)
    ensures r.Ok? <==> |dest| == |cells|
    ensures r.Err? ==> r.error == DestinationCount(|cells|, |dest|)
    ensures r.Ok? ==> |r.value| == |cells| && forall i :: 0 <= i < |cells| ==> r.value[i] == Buffer(cells[i])
  {
    if |dest| != |cells| then Err(DestinationCount(|cells|, |dest|))
    else Ok(seq(|cells|, i requires 0 <= i < |cells| => Buffer(cells[i])))
  }

  /** The scanned rows together with the column names. */
  datatype Table = Table(rows: seq<seq<Slot>>, cols: seq<string>)

  /** Whether every row has one cell per column. */
  predicate Rectangular(rows: seq<seq<Cell>>, width: nat) {
    forall i :: 0 <= i < |rows| ==> |rows[i]| == width
  }

  /** `convertRows2SliceInterface`: read the columns, then scan every row
      into a fresh row of empty buffers. A failing scan discards every row
      read so far; the error that ended the iteration is not consulted. */
  method ReadRows(rs: ResultSet) returns (r: Result<Table>)
    ensures rs.columns.Err? ==> r == Err(rs.columns.error)
    ensures rs.columns.Ok? ==>
      (r.Ok? <==> Rectangular(rs.rows, |rs.columns.value|))
    ensures r.Ok? ==>
      && r.value.cols == rs.columns.value
      && |r.value.rows| == |rs.rows|
      && forall i :: 0 <= i < |rs.rows| ==> r.value.rows[i] == ScanBuffers(MakeEmptyRowSpec(|rs.columns.value|), rs.rows[i]).value
    ensures r.Err? && rs.columns.Ok? ==>
      exists i :: 0 <= i < |rs.rows| && Rectangular(rs.rows[..i], |rs.columns.value|)
        && r.error == DestinationCount(|rs.rows[i]|, |rs.columns.value|)
  {
    if rs.columns.Err? {
      return Err(rs.columns.error);
    }
    var cols := rs.columns.value;
    var size := |cols|;
    var out: seq<seq<Slot>> := [];
    var i := 0;
    while i < |rs.rows|
      invariant 0 <= i <= |rs.rows|
      invariant Rectangular(rs.rows[..i], size)
      invariant |out| == i
      invariant forall k :: 0 <= k < i ==> out[k] == ScanBuffers(MakeEmptyRowSpec(size), rs.rows[k]).value
    {
      var row := MakeEmptyRow(size);
      assert row == MakeEmptyRowSpec(size);
      var scanned := ScanBuffers(row, rs.rows[i]);
      if scanned.Err? {
        return Err(scanned.error);
      }
      out := out + [scanned.value];
      assert rs.rows[..i + 1] == rs.rows[..i] + [rs.rows[i]];
      i := i + 1;
    }
    assert rs.rows[..i] == rs.rows;
    return Ok(Table(out, cols));
  }

  /** The value MakeEmptyRow returns. */
  function MakeEmptyRowSpec(n: nat): (row: seq<Slot>)
    ensures |row| == n && forall i :: 0 <= i < n ==> row[i] == EmptyBuffer
  {
    seq(n, _ => EmptyBuffer)
  }

  // ------------------------------------------------------ rows as maps

  /** One row as a map: the columns in order, each mapped to the value of
      its slot, so that of two columns with the same name the later wins. */
  function RowMap<V>(row: seq<Slot>, cols: seq<string>, conv: Slot -> V): map<string, V>
    requires |cols| <= |row|
    decreases |cols|
  {
    if cols == [] then map[]
    else RowMap(row, cols[..|cols| - 1], conv)[cols[|cols| - 1] := conv(row[|cols| - 1])]
  }

  /** Every column is a key of the row's map, and nothing else is. */
  lemma {:induction false} RowMapKeys<V>(row: seq<Slot>, cols: seq<string>, conv: Slot -> V)
    requires |cols| <= |row|
    ensures RowMap(row, cols, conv).Keys == set c | c in cols
    decreases |cols|
  {
    if cols != [] {
      var n := |cols| - 1;
      RowMapKeys(row, cols[..n], conv);
      assert cols == cols[..n] + [cols[n]];
      assert (set c | c in cols) == (set c | c in cols[..n]) + {cols[n]};
    }
  }

  /** A column's value comes from the last column of that name. */
  lemma {:induction false} RowMapLastWins<V>(row: seq<Slot>, cols: seq<string>, conv: Slot -> V, j: nat)
    requires |cols| <= |row| && j < |cols|
    requires forall k :: j < k < |cols| ==> cols[k] != cols[j]
    ensures cols[j] in RowMap(row, cols, conv) && RowMap(row, cols, conv)[cols[j]] == conv(row[j])
    decreases |cols|
  {
    var n := |cols| - 1;
    if j < n {
      RowMapLastWins(row, cols[..n], conv, j);
    }
  }

  /** The loop shared by `convertMapString` and `convertMapBytes`: one map
      per row, in row order. */
  method ConvertMap<V>(rows: seq<seq<Slot>>, cols: seq<string>, conv: Slot -> V) returns (ret: seq<map<string, V>>)
    requires forall i :: 0 <= i < |rows| ==> |cols| <= |rows[i]|
    ensures |ret| == |rows|
    ensures forall i :: 0 <= i < |rows| ==> ret[i] == RowMap(rows[i], cols, conv)
  {
    ret := [];
    for r := 0 to |rows|
      invariant |ret| == r
      invariant forall i :: 0 <= i < r ==> ret[i] == RowMap(rows[i], cols, conv)
    {
      var row := rows[r];
      var m: map<string, V> := map[];
      for i := 0 to |cols|
        invariant m == RowMap(row, cols[..i], conv)
      {
        assert cols[..i + 1][..i] == cols[..i];
        m := m[cols[i] := conv(row[i])];
      }
      assert cols[..|cols|] == cols;
      ret := ret + [m];
    }
  }

  /** `string(b)`: each byte read as the character with that code. */
  function BytesToString(b: seq<byte>): (s: string)
    ensures |s| == |b| && forall i :: 0 <= i < |b| ==> s[i] as int == b[i]
  {
    seq(|b|, i requires 0 <= i < |b| => b[i] as char)
  }

  /** `[]byte(s)` for strings of byte-sized characters: the inverse of
      BytesToString. */
  function StringToBytes(s: string): (b: seq<byte>)
    requires forall i :: 0 <= i < |s| ==> s[i] as int < 256
    ensures |b| == |s| && forall i :: 0 <= i < |s| ==> b[i] == s[i] as int
  {
    seq(|s|, i requires 0 <= i < |s| => s[i] as int)
  }

  lemma BytesStringRoundTrip(b: seq<byte>)
    ensures StringToBytes(BytesToString(b)) == b
  {
  }

  /** The string value of a slot: a nil interface and a NULL cell both
      read as "". */
  function SlotString(s: Slot): (r: string)
    ensures s.Nil? || s.content.None? ==> r == ""
    ensures s.Buffer? && s.content.Some? ==> r == BytesToString(s.content.value)
  {
    match s
    case Nil => ""
    case Buffer(c) => BytesToString(c.GetOr([]))
  }

  /** The bytes value of a slot: a nil interface and a NULL cell both read
      as a nil slice. */
  function SlotBytes(s: Slot): (r: Cell)
    ensures s.Nil? ==> r.None?
    ensures s.Buffer? ==> r == s.content
  {
    match s
    case Nil => None
    case Buffer(c) => c
  }

  /** `convertMapString`. */
  method ConvertMapString(rows: seq<seq<Slot>>, cols: seq<string>) returns (ret: seq<map<string, string>>)
    requires forall i :: 0 <= i < |rows| ==> |cols| <= |rows[i]|
    ensures |ret| == |rows|
    ensures forall i :: 0 <= i < |rows| ==> ret[i] == RowMap(rows[i], cols, SlotString)
  {
    ret := ConvertMap(rows, cols, SlotString);
  }

  /** `convertMapBytes`. */
  method ConvertMapBytes(rows: seq<seq<Slot>>, cols: seq<string>) returns (ret: seq<map<string, Cell>>)
    requires forall i :: 0 <= i < |rows| ==> |cols| <= |rows[i]|
    ensures |ret| == |rows|
    ensures forall i :: 0 <= i < |rows| ==> ret[i] == RowMap(rows[i], cols, SlotBytes)
  {
    ret := ConvertMap(rows, cols, SlotBytes);
  }

  /** What `convertRows2SliceMapString` promises of its answer `r` to the
      result set `rs`: the columns' error, or, when some row does not have
      one cell per column, a scan error; otherwise one map per row, in
      order, built from that row's cells. */
  ghost predicate StringMapsOf(rs: ResultSet, r: Result<seq<map<string, string>>>) {
    && (rs.columns.Err? ==> r == Err(rs.columns.error))
    && (rs.columns.Ok? ==> (r.Ok? <==> Rectangular(rs.rows, |rs.columns.value|)))
    && (r.Ok? ==>
          && rs.columns.Ok?
          && |r.value| == |rs.rows|
          && forall i :: 0 <= i < |rs.rows| ==>
               && |rs.rows[i]| == |rs.columns.value|
               && r.value[i] == RowMap(ScanBuffers(MakeEmptyRowSpec(|rs.columns.value|), rs.rows[i]).value,
                                       rs.columns.value, SlotString))
  }

  /** `convertRows2SliceMapString`. */
  method RowsToStringMaps(rs: ResultSet) returns (r: Result<seq<map<string, string>>>)
    ensures StringMapsOf(rs, r)
  {
    var t := ReadRows(rs);
    if t.Err? {
      return Err(t.error);
    }
    var maps := ConvertMapString(t.value.rows, t.value.cols);
    return Ok(maps);
  }

  /** `convertRows2SliceMapBytes`: as RowsToStringMaps, with NULL kept as
      a nil slice. */
  method RowsToBytesMaps(rs: ResultSet) returns (r: Result<seq<map<string, Cell>>>)
    ensures rs.columns.Err? ==> r == Err(rs.columns.error)
    ensures rs.columns.Ok? ==> (r.Ok? <==> Rectangular(rs.rows, |rs.columns.value|))
    ensures r.Ok? ==>
      && rs.columns.Ok?
      && |r.value| == |rs.rows|
      && forall i :: 0 <= i < |rs.rows| ==>
           && |rs.rows[i]| == |rs.columns.value|
           && r.value[i] == RowMap(ScanBuffers(MakeEmptyRowSpec(|rs.columns.value|), rs.rows[i]).value,
                                   rs.columns.value, SlotBytes)
  {
    var t := ReadRows(rs);
    if t.Err? {
      return Err(t.error);
    }
    var maps := ConvertMapBytes(t.value.rows, t.value.cols);
    return Ok(maps);
  }

  /** End to end, for the string maps: every column is a key of every row's
      map, and the value of a column is its last cell of that name, NULL
      read as "". */
  lemma StringMapOfCells(cells: seq<Cell>, cols: seq<string>, j: nat)
    requires |cells| == |cols| && j < |cols|
    requires forall k :: j < k < |cols| ==> cols[k] != cols[j]
    ensures var m := RowMap(ScanBuffers(MakeEmptyRowSpec(|cols|), cells).value, cols, SlotString);
      && m.Keys == (set c | c in cols)
      && m[cols[j]] == (if cells[j].None? then "" else BytesToString(cells[j].value))
  {
    var row := ScanBuffers(MakeEmptyRowSpec(|cols|), cells).value;
    RowMapKeys(row, cols, SlotString);
    RowMapLastWins(row, cols, SlotString, j);
  }

  /** The same for the byte maps, where NULL reads as a nil slice. */
  lemma BytesMapOfCells(cells: seq<Cell>, cols: seq<string>, j: nat)
    requires |cells| == |cols| && j < |cols|
    requires forall k :: j < k < |cols| ==> cols[k] != cols[j]
    ensures var m := RowMap(ScanBuffers(MakeEmptyRowSpec(|cols|), cells).value, cols, SlotBytes);
      && m.Keys == (set c | c in cols)
      && m[cols[j]] == cells[j]
  {
    var row := ScanBuffers(MakeEmptyRowSpec(|cols|), cells).value;
    RowMapKeys(row, cols, SlotBytes);
    RowMapLastWins(row, cols, SlotBytes, j);
  }
}
