/** The engine of `engine/engine.go`: statement texts and compiled
    templates live in the package-wide `SqlMap` and `TplMap`, shared by
    every engine, here the fields of one `Globals` object that engines
    refer to; templates are `Template`s of `engine/template.go`.

    Opening the database, listing the statement directory, reading the
    files and running statements are the parameters `open`, `listing` and
    `run`/`query`; parsing template text is `parse` and executing a parsed
    template is `exec`. */
module MapEngine {
  import opened Types
  import opened Text
  import opened Templates
  import opened Loader
  import opened Binding
  import XmlParser
  import Sessions

  /** This file's own `DefaultNamespace`. */
  const DefaultNamespace := "default_namespace"

  /** `SqlMap` and `TplMap`. */
  class Globals<T> {
    var sqlMap: map<string, string>
    var tplMap: map<string, Template<T>>

    constructor ()
      ensures sqlMap == map[] && tplMap == map[]
    {
      sqlMap := map[];
      tplMap := map[];
    }
  }

  /** What `buildSql(key, data)` answers with the statements `sqlMap` and
      the templates `tplMap` under template type `typ`, and the templates
      afterwards. */
  function BuildResult<T, D>(sqlMap: map<string, string>, tplMap: map<string, Template<T>>, key: string, typ: string,
                             data: D, parse: (string, string) -> Result<T>, exec: (T, D) -> Rendered)
    : (r: (Built, map<string, Template<T>>))
    ensures key !in sqlMap || sqlMap[key] == "" ==> r == (Built("", Some(UnknownKey(key))), tplMap)
    ensures key in sqlMap && sqlMap[key] != "" && key in tplMap ==>
      r.1 == tplMap && r.0 == Finish(Execute(tplMap[key], data, exec))
    ensures key in sqlMap && sqlMap[key] != "" && key !in tplMap && NewTemplate(key, sqlMap[key], typ, parse).Err? ==>
      r == (Built("", Some(NewTemplate(key, sqlMap[key], typ, parse).error)), tplMap)
    ensures key in sqlMap && sqlMap[key] != "" && key !in tplMap && NewTemplate(key, sqlMap[key], typ, parse).Ok? ==>
      && r.1 == tplMap[key := NewTemplate(key, sqlMap[key], typ, parse).value]
      && r.0 == Finish(Execute(NewTemplate(key, sqlMap[key], typ, parse).value, data, exec))
    ensures IsNormalSql(r.0.sql)
    ensures forall k :: k in tplMap ==> k in r.1 && r.1[k] == tplMap[k]
  {
    var content := MapGet(sqlMap, key, "");
    if content == "" then (Built("", Some(UnknownKey(key))), tplMap)
    else
      var (t, c) := CacheGet(tplMap, key, NewTemplate(key, content, typ, parse));
      if t.Err? then (Built("", Some(t.error)), c) else (Finish(Execute(t.value, data, exec)), c)
  }

  /** Templates are keyed by statement key only: once a key's template is
      cached, loading other (non-empty) text for the key changes nothing,
      and the old template keeps being rendered. */
  lemma CachedTemplateOutlivesReload<T, D>(sqlMap: map<string, string>, tplMap: map<string, Template<T>>, key: string,
                                           text: string, typ: string, data: D,
                                           parse: (string, string) -> Result<T>, exec: (T, D) -> Rendered)
    requires key in sqlMap && sqlMap[key] != "" && key in tplMap && text != ""
    ensures BuildResult(sqlMap[key := text], tplMap, key, typ, data, parse, exec)
         == BuildResult(sqlMap, tplMap, key, typ, data, parse, exec)
         == (Finish(Execute(tplMap[key], data, exec)), tplMap)
  {
  }

  /** A template type other than "default" is refused when compiling, so
      an engine of such a type never caches anything. */
  lemma UnsupportedTypeNeverCaches<T, D>(sqlMap: map<string, string>, tplMap: map<string, Template<T>>, key: string,
                                         typ: string, data: D,
                                         parse: (string, string) -> Result<T>, exec: (T, D) -> Rendered)
    requires typ != Default && key !in tplMap
    ensures BuildResult(sqlMap, tplMap, key, typ, data, parse, exec).1 == tplMap
    ensures key in sqlMap && sqlMap[key] != "" ==>
      BuildResult(sqlMap, tplMap, key, typ, data, parse, exec).0.err == Some(UnsupportedTemplateType(typ))
  {
  }

  class SqlEngine<T> {
    const globals: Globals<T>
    var db: Option<Sessions.Db>
    var init: bool
    var tplType: string
    var sessionFactory: Option<Sessions.SessionFactory>

    /** `New()`. */
    constructor (globals: Globals<T>)
      ensures this.globals == globals && db.None? && !init && tplType == "" && sessionFactory.None?
    {
      this.globals := globals;
      db := None;
      init := false;
      tplType := "";
      sessionFactory := None;
    }

    /** `GetDB()`. */
    method GetDB() returns (d: Option<Sessions.Db>)
      requires init
      ensures d == db
    {
      d := db;
    }

    /** `Init(driver, dataSrcName, sqlDir, typ)`: `open` is what opening the
        database gives, `listing` what listing the statement directory and
        reading its files gives. The engine counts as initialised afterwards
        whatever happened. */
    method Init(open: Result<Sessions.Db>, listing: Result<seq<SqlFile>>, typ: string) returns (err: Option<Error>)
      modifies this, globals`sqlMap
      ensures init && tplType == typ
      ensures open.Err? ==>
        && db.None?
        && sessionFactory == old(sessionFactory)
        && err == Some(open.error)
        && globals.sqlMap == old(globals.sqlMap)
      ensures open.Ok? ==>
        && db == Some(open.value)
        && sessionFactory.Some? && fresh(sessionFactory.value) && sessionFactory.value.db == open.value
        && (globals.sqlMap, err) == LoadDir(old(globals.sqlMap), listing, DefaultNamespace)
    {
      tplType := typ;
      if open.Err? {
        db := None;
        err := Some(open.error);
      } else {
        db := Some(open.value);
        var factory := new Sessions.SessionFactory(open.value);
        sessionFactory := Some(factory);
        err := InitSql(listing);
      }
      init := true;
    }

    /** `initSql(sqlDir)`: the files in order, stopping at the first one
        that fails. */
    method InitSql(listing: Result<seq<SqlFile>>) returns (err: Option<Error>)
      modifies globals`sqlMap
      ensures (globals.sqlMap, err) == LoadDir(old(globals.sqlMap), listing, DefaultNamespace)
    {
      if listing.Err? {
        return Some(listing.error);
      }
      var files := listing.value;
      for i := 0 to |files|
        invariant LoadFiles(globals.sqlMap, files[i..], DefaultNamespace) == LoadDir(old(globals.sqlMap), listing, DefaultNamespace)
      {
        assert files[i..][0] == files[i] && files[i..][1..] == files[i + 1..];
        err := InitSqlMap(files[i]);
        if err.Some? {
          return;
        }
      }
      return None;
    }

    /** `initSqlMap(file)`: parse the file (`parse` of this file follows the
        same steps as the parser package, with this file's default
        namespace) and merge its statements into `SqlMap`. */
    method InitSqlMap(file: SqlFile) returns (err: Option<Error>)
      modifies globals`sqlMap
      ensures (globals.sqlMap, err) == LoadFile(old(globals.sqlMap), file, DefaultNamespace)
    {
      if file.Err? {
        return Some(file.error);
      }
      var p := XmlParser.Parse(file.value, DefaultNamespace);
      if p.err.Some? {
        return p.err;
      }
      if p.m.Some? && |p.m.value| > 0 {
        globals.sqlMap := Merge(globals.sqlMap, p.m.value);
      } else if p.m.Some? {
        assert globals.sqlMap + p.m.value == globals.sqlMap;
      }
      return None;
    }

    /** `getAndSetTemplate(key, content, typ)` over `TplMap`. */
    method GetAndSetTemplate(key: string, content: string, typ: string, parse: (string, string) -> Result<T>)
      returns (r: Result<Template<T>>)
      modifies globals`tplMap
      ensures (r, globals.tplMap) == CacheGet(old(globals.tplMap), key, NewTemplate(key, content, typ, parse))
    {
      if key in globals.tplMap {
        return Ok(globals.tplMap[key]);
      }
      r := NewTemplate(key, content, typ, parse);
      if r.Err? {
        return;
      }
      globals.tplMap := globals.tplMap[key := r.value];
    }

    /** `buildSql(key, data)`. */
    method BuildSql<D>(key: string, data: D, parse: (string, string) -> Result<T>, exec: (T, D) -> Rendered)
      returns (b: Built)
      requires init
      modifies globals`tplMap
      ensures (b, globals.tplMap) == old(BuildResult(globals.sqlMap, globals.tplMap, key, tplType, data, parse, exec))
    {
      var content := MapGet(globals.sqlMap, key, "");
      if content == "" {
        return Built("", Some(UnknownKey(key)));
      }
      var tpl := GetAndSetTemplate(key, content, tplType, parse);
      if tpl.Err? {
        return Built("", Some(tpl.error));
      }
      b := Finish(Templates.Execute(tpl.value, data, exec));
    }

    /** `Execute(key, data)`: -1 and the error when building or running the
        statement fails, otherwise the id `run` answers. `sent` records
        what the database was given. Without a database (opening it
        failed) the Go code dereferences nil. */
    method Execute<D>(key: string, data: D, parse: (string, string) -> Result<T>, exec: (T, D) -> Rendered,
                      run: string -> Result<int>) returns (id: int, err: Option<Error>, ghost sent: Option<string>)
      requires init && db.Some?
      modifies globals`tplMap
      ensures var b := old(BuildResult(globals.sqlMap, globals.tplMap, key, tplType, data, parse, exec)).0;
        && (b.err.Some? ==> id == -1 && err == b.err && sent.None?)
        && (b.err.None? ==> sent == Some(b.sql))
        && (b.err.None? && run(b.sql).Err? ==> id == -1 && err == Some(run(b.sql).error))
        && (b.err.None? && run(b.sql).Ok? ==> id == run(b.sql).value && err.None?)
      ensures globals.tplMap == old(BuildResult(globals.sqlMap, globals.tplMap, key, tplType, data, parse, exec)).1
    {
      var b := BuildSql(key, data, parse, exec);
      if b.err.Some? {
        return -1, b.err, None;
      }
      sent := Some(b.sql);
      var result := run(b.sql);
      if result.Err? {
        return -1, Some(result.error), sent;
      }
      return result.value, None, sent;
    }

    /** `Query(key, data)`: the rows `query` answers for the statement, as
        one column -> text map per row. Without a database the Go code
        dereferences nil. */
    method Query<D>(key: string, data: D, parse: (string, string) -> Result<T>, exec: (T, D) -> Rendered,
                    query: string -> Result<ResultSet>)
      returns (r: Result<seq<map<string, string>>>, ghost sent: Option<string>)
      requires init && db.Some?
      modifies globals`tplMap
      ensures var b := old(BuildResult(globals.sqlMap, globals.tplMap, key, tplType, data, parse, exec)).0;
        && (b.err.Some? ==> r == Err(b.err.value) && sent.None?)
        && (b.err.None? ==> sent == Some(b.sql))
        && (b.err.None? && query(b.sql).Err? ==> r == Err(query(b.sql).error))
        && (b.err.None? && query(b.sql).Ok? ==> StringMapsOf(query(b.sql).value, r))
      ensures globals.tplMap == old(BuildResult(globals.sqlMap, globals.tplMap, key, tplType, data, parse, exec)).1
    {
      var b := BuildSql(key, data, parse, exec);
      if b.err.Some? {
        return Err(b.err.value), None;
      }
      sent := Some(b.sql);
      var rows := query(b.sql);
      if rows.Err? {
        return Err(rows.error), sent;
      }
      r := RowsToStringMaps(rows.value);
    }

    /** `NewSession()`: a fresh session on the engine's database. The
        factory exists only once opening the database succeeded; without
        it the Go code dereferences nil. */
    method NewSession() returns (s: Sessions.Session)
      requires init && sessionFactory.Some?
      ensures fresh(s) && s.db == sessionFactory.value.db && s.State() == Sessions.FreshState
    {
      s := sessionFactory.value.NewSession();
    }
  }
}
