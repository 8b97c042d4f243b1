/** Statement lookup and execution in `engine/common.go`: as in
    `engine/core.go`, but without the empty-key check, and with `query`
    and `exec` running the built statement through a driver callback `f`. */
module CommonEngine {
  import opened Types
  import opened Text
  import opened Templates
  import opened Mapper
  import opened Binding

  /** What `buildSql` answers in the current state of `SqlMap`. */
  function BuildResult<T, D>(sqlMap: map<string, SqlTemplate<T>>, key: string, param: D,
                             compile: (string, string) -> Result<T>, exec: (T, D) -> Rendered): (b: Built)
    reads sqlMap.Values
    ensures key !in sqlMap ==> b == Built("", Some(UnknownKey(key)))
    ensures key in sqlMap && sqlMap[key].Resolved(key, compile).Err? ==>
      b == Built("", Some(sqlMap[key].Resolved(key, compile).error))
    ensures key in sqlMap && sqlMap[key].Resolved(key, compile).Ok? ==>
      var out := exec(sqlMap[key].Resolved(key, compile).value, param);
      && b == Finish(out)
      && b.err == out.err && b.sql == NormalizeSql(out.text) && Visible(b.sql) == Visible(out.text)
    ensures IsNormalSql(b.sql)
  {
    if key !in sqlMap then Built("", Some(UnknownKey(key)))
    else match sqlMap[key].Resolved(key, compile)
      case Err(e) => Built("", Some(e))
      case Ok(t) => Finish(exec(t, param))
  }

  /** `buildSql(key, param)`. */
  method BuildSql<T, D>(sqlMap: map<string, SqlTemplate<T>>, key: string, param: D,
                        compile: (string, string) -> Result<T>, exec: (T, D) -> Rendered) returns (b: Built)
    modifies if key in sqlMap then {sqlMap[key]} else {}
    ensures b == old(BuildResult(sqlMap, key, param, compile, exec))
    ensures key in sqlMap ==>
      var r := old(sqlMap[key].Resolved(key, compile));
      sqlMap[key].tpl == (if r.Ok? then Some(r.value) else old(sqlMap[key].tpl))
  {
    if key !in sqlMap {
      return Built("", Some(UnknownKey(key)));
    }
    var mapper := sqlMap[key];
    var tpl := mapper.GetAndSetTemplate(key, compile);
    if tpl.Err? {
      return Built("", Some(tpl.error));
    }
    b := Finish(exec(tpl.value, param));
  }

  /** Unlike `engine/core.go`, the empty key is an ordinary key here: it
      is looked up like any other. */
  lemma EmptyKeyIsLookedUp<T, D>(sqlMap: map<string, SqlTemplate<T>>, param: D,
                                 compile: (string, string) -> Result<T>, exec: (T, D) -> Rendered)
    requires "" in sqlMap && sqlMap[""].Resolved("", compile).Ok?
    ensures BuildResult(sqlMap, "", param, compile, exec).err
         == exec(sqlMap[""].Resolved("", compile).value, param).err
  {
  }

  /** `exec(key, param, f)`: build the statement, and only when that
      succeeds, hand it to `f`. `sent` records what `f` was called with. */
  method Exec<T, D, R>(sqlMap: map<string, SqlTemplate<T>>, key: string, param: D,
                       compile: (string, string) -> Result<T>, exec: (T, D) -> Rendered,
                       f: string -> Result<R>) returns (r: Result<R>, ghost sent: Option<string>)
    modifies if key in sqlMap then {sqlMap[key]} else {}
    ensures var b := old(BuildResult(sqlMap, key, param, compile, exec));
      && (b.err.Some? ==> r == Err(b.err.value) && sent.None?)
      && (b.err.None? ==> sent == Some(b.sql) && r == f(b.sql))
  {
    var b := BuildSql(sqlMap, key, param, compile, exec);
    if b.err.Some? {
      return Err(b.err.value), None;
    }
    sent := Some(b.sql);
    r := f(b.sql);
  }

  /** `query(key, param, f)`: build the statement, hand it to `f` only when
      that succeeds, and convert the rows `f` answers into string maps. */
  method Query<T, D>(sqlMap: map<string, SqlTemplate<T>>, key: string, param: D,
                     compile: (string, string) -> Result<T>, exec: (T, D) -> Rendered,
                     f: string -> Result<ResultSet>)
    returns (r: Result<seq<map<string, string>>>, ghost sent: Option<string>)
    modifies if key in sqlMap then {sqlMap[key]} else {}
    ensures var b := old(BuildResult(sqlMap, key, param, compile, exec));
      && (b.err.Some? ==> r == Err(b.err.value) && sent.None?)
      && (b.err.None? ==> sent == Some(b.sql))
      && (b.err.None? && f(b.sql).Err? ==> r == Err(f(b.sql).error))
      && (b.err.None? && f(b.sql).Ok? ==> StringMapsOf(f(b.sql).value, r))
  {
    var b := BuildSql(sqlMap, key, param, compile, exec);
    if b.err.Some? {
      return Err(b.err.value), None;
    }
    sent := Some(b.sql);
    var rows := f(b.sql);
    if rows.Err? {
      return Err(rows.error), sent;
    }
    r := RowsToStringMaps(rows.value);
  }
}
