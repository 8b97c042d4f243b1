/** Statement lookup in `engine/core.go`: `sqlMap` holds the registered
    statements, `buildSql` looks a key up, compiles its template once and
    renders it. Compiling (`tplBuilder.New`) and executing a template are
    the parameters `compile` and `exec`. */
module CoreEngine {
  import opened Types
  import opened Text
  import opened Templates
  import opened Mapper
  import opened Binding
  import RowScan

  /** What `buildSql` answers in the current state of the statements. */
  function BuildResult<T, D>(sqlMap: map<string, SqlTemplate<T>>, key: string, param: D,
                             compile: (string, string) -> Result<T>, exec: (T, D) -> Rendered): (b: Built)
    reads sqlMap.Values
    ensures key == "" ==> b == Built("", Some(EmptyKey))
    ensures key != "" && key !in sqlMap ==> b == Built("", Some(UnknownKey(key)))
    ensures key != "" && key in sqlMap && sqlMap[key].Resolved(key, compile).Err? ==>
      b == Built("", Some(sqlMap[key].Resolved(key, compile).error))
    ensures key != "" && key in sqlMap && sqlMap[key].Resolved(key, compile).Ok? ==>
      var out := exec(sqlMap[key].Resolved(key, compile).value, param);
      && b == Finish(out)
      && b.err == out.err && b.sql == NormalizeSql(out.text) && Visible(b.sql) == Visible(out.text)
    ensures IsNormalSql(b.sql)
  {
    if key == "" then Built("", Some(EmptyKey))
    else if key !in sqlMap then Built("", Some(UnknownKey(key)))
    else match sqlMap[key].Resolved(key, compile)
      case Err(e) => Built("", Some(e))
      case Ok(t) => Finish(exec(t, param))
  }

  /** `buildSql(key, param)`. Only the looked-up statement's cached
      template can change, and only from absent to compiled. */
  method BuildSql<T, D>(sqlMap: map<string, SqlTemplate<T>>, key: string, param: D,
                        compile: (string, string) -> Result<T>, exec: (T, D) -> Rendered) returns (b: Built)
    modifies if key != "" && key in sqlMap then {sqlMap[key]} else {}
    ensures b == old(BuildResult(sqlMap, key, param, compile, exec))
    ensures key != "" && key in sqlMap ==>
      var r := old(sqlMap[key].Resolved(key, compile));
      sqlMap[key].tpl == (if r.Ok? then Some(r.value) else old(sqlMap[key].tpl))
  {
    if key == "" {
      return Built("", Some(EmptyKey));
    }
    if key !in sqlMap {
      return Built("", Some(UnknownKey(key)));
    }
    var mapper := sqlMap[key];
    var tpl := mapper.GetAndSetTemplate(key, compile);
    if tpl.Err? {
      return Built("", Some(tpl.error));
    }
    b := Finish(exec(tpl.value, param));
  }

  /** Building a statement twice compiles it at most once: when the first
      build got past compiling, the second renders the same template,
      whatever compiling would give the second time. */
  lemma BuildResultAfterCompile<T, D>(sqlMap: map<string, SqlTemplate<T>>, key: string, param: D,
                                      c1: (string, string) -> Result<T>, c2: (string, string) -> Result<T>,
                                      exec: (T, D) -> Rendered)
    requires key != "" && key in sqlMap && sqlMap[key].tpl.Some?
    ensures BuildResult(sqlMap, key, param, c1, exec) == BuildResult(sqlMap, key, param, c2, exec)
         == Finish(exec(sqlMap[key].tpl.value, param))
  {
  }

  /** `exec(key, param, f)`, and `queryRows` with `f` answering rows:
      build the statement and, only when that succeeds, hand it to `f`.
      `sent` records what `f` was called with. */
  method Exec<T, D, R>(sqlMap: map<string, SqlTemplate<T>>, key: string, param: D,
                       compile: (string, string) -> Result<T>, exec: (T, D) -> Rendered,
                       f: string -> Result<R>) returns (r: Result<R>, ghost sent: Option<string>)
    modifies if key != "" && key in sqlMap then {sqlMap[key]} else {}
    ensures var b := old(BuildResult(sqlMap, key, param, compile, exec));
      && (b.err.Some? ==> r == Err(b.err.value) && sent.None?)
      && (b.err.None? ==> sent == Some(b.sql) && r == f(b.sql))
  {
    var b := BuildSql(sqlMap, key, param, compile, exec);
    if b.err.Some? {
      return Err(b.err.value), None;
    }
    sent := Some(b.sql);
    r := f(b.sql);
  }

  /** `query(key, param, f)`: the rows as one column -> text map per row. */
  method Query<T, D>(sqlMap: map<string, SqlTemplate<T>>, key: string, param: D,
                     compile: (string, string) -> Result<T>, exec: (T, D) -> Rendered,
                     f: string -> Result<ResultSet>)
    returns (r: Result<seq<map<string, string>>>, ghost sent: Option<string>)
    modifies if key != "" && key in sqlMap then {sqlMap[key]} else {}
    ensures var b := old(BuildResult(sqlMap, key, param, compile, exec));
      && (b.err.Some? ==> r == Err(b.err.value) && sent.None?)
      && (b.err.None? ==> sent == Some(b.sql))
      && (b.err.None? && f(b.sql).Err? ==> r == Err(f(b.sql).error))
      && (b.err.None? && f(b.sql).Ok? ==> StringMapsOf(f(b.sql).value, r))
  {
    var rows;
    rows, sent := Exec(sqlMap, key, param, compile, exec, f);
    if rows.Err? {
      return Err(rows.error), sent;
    }
    r := RowsToStringMaps(rows.value);
  }

  /** `selectRow(dest, key, param, f)`: the rows scanned into `dest`,
      which is written only when there is exactly one row. */
  method SelectRow<T, D>(dest: RowScan.RowDest, sqlMap: map<string, SqlTemplate<T>>, key: string, param: D,
                         compile: (string, string) -> Result<T>, exec: (T, D) -> Rendered,
                         f: string -> Result<ResultSet>, convert: (Cell, RowScan.GoType) -> Option<Error>)
    returns (err: Option<Error>)
    modifies dest, if key != "" && key in sqlMap then {sqlMap[key]} else {}
    ensures var b := old(BuildResult(sqlMap, key, param, compile, exec));
      && (b.err.Some? ==> err == b.err && dest.record == old(dest.record))
      && (b.err.None? && f(b.sql).Err? ==> err == Some(f(b.sql).error) && dest.record == old(dest.record))
      && (b.err.None? && f(b.sql).Ok? ==>
            var s := RowScan.ScanRowResult(dest.typ, f(b.sql).value, convert);
            && (s.Err? ==> err == Some(s.error) && dest.record == old(dest.record))
            && (s.Ok? ==> err.None? && dest.record == s.value))
  {
    var rows, sent := Exec(sqlMap, key, param, compile, exec, f);
    if rows.Err? {
      return Some(rows.error);
    }
    err := RowScan.ScanRow(dest, rows.value, convert);
  }

  /** `selectRows(dest, key, param, f)`: the rows appended to `dest`. */
  method SelectRows<T, D>(dest: RowScan.RowsDest, sqlMap: map<string, SqlTemplate<T>>, key: string, param: D,
                          compile: (string, string) -> Result<T>, exec: (T, D) -> Rendered,
                          f: string -> Result<ResultSet>, convert: (Cell, RowScan.GoType) -> Option<Error>)
    returns (err: Option<Error>)
    modifies dest, if key != "" && key in sqlMap then {sqlMap[key]} else {}
    ensures var b := old(BuildResult(sqlMap, key, param, compile, exec));
      && (b.err.Some? ==> err == b.err && dest.elems == old(dest.elems))
      && (b.err.None? && f(b.sql).Err? ==> err == Some(f(b.sql).error) && dest.elems == old(dest.elems))
      && (b.err.None? && f(b.sql).Ok? && RowScan.CheckScanRowsType(dest.typ).Some? ==>
            err == RowScan.CheckScanRowsType(dest.typ) && dest.elems == old(dest.elems))
      && (b.err.None? && f(b.sql).Ok? && RowScan.CheckScanRowsType(dest.typ).None? ==>
            var (added, e) := RowScan.ScanRowsResult(dest.typ, f(b.sql).value, convert);
            dest.elems == old(dest.elems) + added && err == e)
  {
    var rows, sent := Exec(sqlMap, key, param, compile, exec, f);
    if rows.Err? {
      return Some(rows.error);
    }
    err := RowScan.ScanRows(dest, rows.value, convert);
  }
}
