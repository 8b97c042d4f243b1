/** The engine of `engine/sql_engine.go`: a registry of statement texts
    owned by the engine, rendering delegated to a `SqlBuilder`.

    Opening the database, listing the statement directory, reading the
    files and running statements are done by the caller of the model: they
    are the parameters `open`, `listing` and `run`/`query`. */
module BuilderEngine {
  import opened Types
  import opened Text
  import opened Templates
  import opened Builder
  import opened Loader
  import opened Binding
  import XmlParser
  import Sessions

  /** What `buildSql(key, data)` answers with the registry `sqlMap` and the
      builder's cache `cache`, and the cache afterwards. A missing key and
      an empty statement are both unknown; otherwise the statement text is
      handed to the builder with the engine's template type. */
  function BuildResult<T, D>(sqlMap: map<string, string>, cache: map<string, T>, key: string, typ: string, data: D,
                             compile: (string, string, string) -> Result<T>, exec: (T, D) -> Rendered): (r: (Built, map<string, T>))
    ensures key !in sqlMap || sqlMap[key] == "" ==> r == (Built("", Some(UnknownKey(key))), cache)
    ensures key in sqlMap && sqlMap[key] != "" ==> r == BuildStep(cache, key, sqlMap[key], typ, data, compile, exec)
    ensures IsNormalSql(r.0.sql)
  {
    var val := MapGet(sqlMap, key, "");
    if val == "" then (Built("", Some(UnknownKey(key))), cache)
    else BuildStep(cache, key, val, typ, data, compile, exec)
  }

  /** A key with an empty statement is as unknown as a missing key. */
  lemma EmptyStatementIsUnknown<T, D>(sqlMap: map<string, string>, cache: map<string, T>, key: string, typ: string, data: D,
                                      compile: (string, string, string) -> Result<T>, exec: (T, D) -> Rendered)
    requires key !in sqlMap
    ensures BuildResult(sqlMap[key := ""], cache, key, typ, data, compile, exec)
         == BuildResult(sqlMap, cache, key, typ, data, compile, exec)
         == (Built("", Some(UnknownKey(key))), cache)
  {
  }

  class SqlEngine<T> {
    var db: Option<Sessions.Db>
    const sqlBuilder: SqlBuilder<T>
    var init: bool
    var tplType: string
    /** The registered statements by full id. */
    var sqlMap: map<string, string>

    /** `New()`: an empty registry and a fresh builder. */
    constructor ()
      ensures sqlMap == map[] && !init && db.None? && tplType == ""
      ensures fresh(sqlBuilder) && sqlBuilder.tplMap == map[]
    {
      db := None;
      sqlBuilder := new SqlBuilder();
      init := false;
      tplType := "";
      sqlMap := map[];
    }

    /** `GetDB()`. */
    method GetDB() returns (d: Option<Sessions.Db>)
      requires init
      ensures d == db
    {
      d := db;
    }

    /** `Init(driver, dataSrcName, sqlDir, typ)`: `open` is what opening the
        database gives, `listing` what listing the statement directory and
        reading its files gives. The engine counts as initialised afterwards
        whatever happened. */
    method Init(open: Result<Sessions.Db>, listing: Result<seq<SqlFile>>, typ: string) returns (err: Option<Error>)
      modifies this
      ensures init && tplType == typ
      ensures open.Err? ==> db.None? && err == Some(open.error) && sqlMap == old(sqlMap)
      ensures open.Ok? ==> db == Some(open.value) && (sqlMap, err) == LoadDir(old(sqlMap), listing, XmlParser.DefaultNamespace)
    {
      tplType := typ;
      if open.Err? {
        db := None;
        err := Some(open.error);
      } else {
        db := Some(open.value);
        err := InitSql(listing);
      }
      init := true;
    }

    /** `initSql(sqlDir)`: the files in order, stopping at the first one
        that fails. */
    method InitSql(listing: Result<seq<SqlFile>>) returns (err: Option<Error>)
      modifies this`sqlMap
      ensures (sqlMap, err) == LoadDir(old(sqlMap), listing, XmlParser.DefaultNamespace)
    {
      if listing.Err? {
        return Some(listing.error);
      }
      var files := listing.value;
      for i := 0 to |files|
        invariant LoadFiles(sqlMap, files[i..], XmlParser.DefaultNamespace) == LoadDir(old(sqlMap), listing, XmlParser.DefaultNamespace)
      {
        assert files[i..][0] == files[i] && files[i..][1..] == files[i + 1..];
        err := InitSqlMap(files[i]);
        if err.Some? {
          return;
        }
      }
      return None;
    }

    /** `initSqlMap(file)`: parse the file and merge its statements into
        the registry, later ones replacing earlier ones. */
    method InitSqlMap(file: SqlFile) returns (err: Option<Error>)
      modifies this`sqlMap
      ensures (sqlMap, err) == LoadFile(old(sqlMap), file, XmlParser.DefaultNamespace)
    {
      if file.Err? {
        return Some(file.error);
      }
      var p := XmlParser.Parse(file.value, XmlParser.DefaultNamespace);
      if p.err.Some? {
        return p.err;
      }
      if p.m.Some? && |p.m.value| > 0 {
        sqlMap := Merge(sqlMap, p.m.value);
      } else if p.m.Some? {
        assert sqlMap + p.m.value == sqlMap;
      }
      return None;
    }

    /** `buildSql(key, data)`. */
    method BuildSql<D>(key: string, data: D, compile: (string, string, string) -> Result<T>, exec: (T, D) -> Rendered)
      returns (b: Built)
      requires init
      modifies sqlBuilder
      ensures (b, sqlBuilder.tplMap) == old(BuildResult(sqlMap, sqlBuilder.tplMap, key, tplType, data, compile, exec))
    {
      var val := MapGet(sqlMap, key, "");
      if val == "" {
        return Built("", Some(UnknownKey(key)));
      }
      b := sqlBuilder.BuildSql(key, val, tplType, data, compile, exec);
    }

    /** `Execute(key, data)`: -1 and the error when building or running the
        statement fails, otherwise the id `run` answers. `sent` records
        what the database was given. Without a database (opening it
        failed) the Go code dereferences nil. */
    method Execute<D>(key: string, data: D, compile: (string, string, string) -> Result<T>, exec: (T, D) -> Rendered,
                      run: string -> Result<int>) returns (id: int, err: Option<Error>, ghost sent: Option<string>)
      requires init && db.Some?
      modifies sqlBuilder
      ensures var b := old(BuildResult(sqlMap, sqlBuilder.tplMap, key, tplType, data, compile, exec)).0;
        && (b.err.Some? ==> id == -1 && err == b.err && sent.None?)
        && (b.err.None? ==> sent == Some(b.sql))
        && (b.err.None? && run(b.sql).Err? ==> id == -1 && err == Some(run(b.sql).error))
        && (b.err.None? && run(b.sql).Ok? ==> id == run(b.sql).value && err.None?)
      ensures sqlBuilder.tplMap == old(BuildResult(sqlMap, sqlBuilder.tplMap, key, tplType, data, compile, exec)).1
    {
      var b := BuildSql(key, data, compile, exec);
      if b.err.Some? {
        return -1, b.err, None;
      }
      sent := Some(b.sql);
      var result := run(b.sql);
      if result.Err? {
        return -1, Some(result.error), sent;
      }
      return result.value, None, sent;
    }

    /** `Query(key, data)`: the rows `query` answers for the statement, as
        one column -> text map per row. Without a database the Go code
        dereferences nil. */
    method Query<D>(key: string, data: D, compile: (string, string, string) -> Result<T>, exec: (T, D) -> Rendered,
                    query: string -> Result<ResultSet>)
      returns (r: Result<seq<map<string, string>>>, ghost sent: Option<string>)
      requires init && db.Some?
      modifies sqlBuilder
      ensures var b := old(BuildResult(sqlMap, sqlBuilder.tplMap, key, tplType, data, compile, exec)).0;
        && (b.err.Some? ==> r == Err(b.err.value) && sent.None?)
        && (b.err.None? ==> sent == Some(b.sql))
        && (b.err.None? && query(b.sql).Err? ==> r == Err(query(b.sql).error))
        && (b.err.None? && query(b.sql).Ok? ==> StringMapsOf(query(b.sql).value, r))
      ensures sqlBuilder.tplMap == old(BuildResult(sqlMap, sqlBuilder.tplMap, key, tplType, data, compile, exec)).1
    {
      var b := BuildSql(key, data, compile, exec);
      if b.err.Some? {
        return Err(b.err.value), None;
      }
      sent := Some(b.sql);
      var rows := query(b.sql);
      if rows.Err? {
        return Err(rows.error), sent;
      }
      r := RowsToStringMaps(rows.value);
    }
  }
}
