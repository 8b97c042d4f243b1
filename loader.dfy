/** Loading statement files into a registry, as `initSql` and
    `initSqlMap` do in both `engine/engine.go` and `engine/sql_engine.go`:
    parse each file in turn and merge its statements into the registry,
    stopping at the first file that fails. */
module Loader {
  import opened Types
  import opened XmlParser

  /** A statement file: the error reading it, or what it contains. */
  type SqlFile = Result<XmlInput>

  /** `for k, v := range m { into[k] = v }`: the entries of `m` are added
      to `into`, replacing those with the same key. */
  method Merge(into: map<string, string>, m: map<string, string>) returns (r: map<string, string>)
    ensures r.Keys == into.Keys + m.Keys
    ensures forall k :: k in m ==> r[k] == m[k]
    ensures forall k :: k in into && k !in m ==> r[k] == into[k]
    ensures r == into + m
  {
    r := into;
    var todo := m.Keys;
    while todo != {}
      invariant todo <= m.Keys
      invariant r.Keys == into.Keys + (m.Keys - todo)
      invariant forall k :: k in m.Keys - todo ==> r[k] == m[k]
      invariant forall k :: k in into && k !in m.Keys - todo ==> r[k] == into[k]
      decreases todo
    {
      var k :| k in todo;
      r := r[k := m[k]];
      todo := todo - {k};
    }
  }

  /** `initSqlMap(file)`: a read or parse error leaves the registry alone
      (whatever the parser had collected before failing is dropped);
      otherwise the file's statements are merged in. */
  function LoadFile(reg: map<string, string>, file: SqlFile, dflt: string): (r: (map<string, string>, Option<Error>))
    ensures file.Err? ==> r == (reg, Some(file.error))
    ensures file.Ok? && ParseSpec(file.value, dflt).err.Some? ==> r == (reg, ParseSpec(file.value, dflt).err)
    ensures r.1.None? ==> r.0 == reg + ParseSpec(file.value, dflt).m.value
  {
    match file
    case Err(e) => (reg, Some(e))
    case Ok(input) =>
      var p := ParseSpec(input, dflt);
      if p.err.Some? then (reg, p.err)
      else if p.m.Some? then (reg + p.m.value, None)
      else (reg, None)
  }

  /** `initSql(sqlDir)` once the directory has been listed: the files in
      order, stopping at the first error. */
  function LoadFiles(reg: map<string, string>, files: seq<SqlFile>, dflt: string): (r: (map<string, string>, Option<Error>))
    decreases |files|
  {
    if files == [] then (reg, None)
    else
      var (reg', err) := LoadFile(reg, files[0], dflt);
      if err.Some? then (reg', err) else LoadFiles(reg', files[1..], dflt)
  }

  /** `initSql(sqlDir)`: the error of listing the directory, or its files
      loaded in order. */
  function LoadDir(reg: map<string, string>, listing: Result<seq<SqlFile>>, dflt: string): (r: (map<string, string>, Option<Error>))
    ensures listing.Err? ==> r == (reg, Some(listing.error))
    ensures listing.Ok? ==> r == LoadFiles(reg, listing.value, dflt)
  {
    match listing
    case Err(e) => (reg, Some(e))
    case Ok(files) => LoadFiles(reg, files, dflt)
  }

  /** Loading stops at the first failing file, keeping the statements of
      the files before it. */
  lemma {:induction false} LoadFilesStopsAtFirstError(reg: map<string, string>, files: seq<SqlFile>, dflt: string)
    requires LoadFiles(reg, files, dflt).1.Some?
    ensures exists i ::
      && 0 <= i < |files|
      && LoadFiles(reg, files[..i], dflt).1.None?
      && LoadFile(LoadFiles(reg, files[..i], dflt).0, files[i], dflt).1 == LoadFiles(reg, files, dflt).1
      && LoadFiles(reg, files, dflt).0 == LoadFiles(reg, files[..i], dflt).0
    decreases |files|
  {
    var (reg', err) := LoadFile(reg, files[0], dflt);
    assert files[..0] == [];
    if err.Some? {
      assert LoadFiles(reg, files[..0], dflt) == (reg, None);
    } else {
      LoadFilesStopsAtFirstError(reg', files[1..], dflt);
      var i :| 0 <= i < |files[1..]|
        && LoadFiles(reg', files[1..][..i], dflt).1.None?
        && LoadFile(LoadFiles(reg', files[1..][..i], dflt).0, files[1..][i], dflt).1 == LoadFiles(reg', files[1..], dflt).1
        && LoadFiles(reg', files[1..], dflt).0 == LoadFiles(reg', files[1..][..i], dflt).0;
      assert files[..i + 1][0] == files[0] && files[..i + 1][1..] == files[1..][..i];
      assert files[i + 1] == files[1..][i];
    }
  }

  /** Loading all files means loading the first ones, then the rest. */
  lemma {:induction false} LoadFilesAppend(reg: map<string, string>, a: seq<SqlFile>, b: seq<SqlFile>, dflt: string)
    requires LoadFiles(reg, a, dflt).1.None?
    ensures LoadFiles(reg, a + b, dflt) == LoadFiles(LoadFiles(reg, a, dflt).0, b, dflt)
    decreases |a|
  {
    if a == [] {
      assert a + b == b;
    } else {
      assert (a + b)[0] == a[0] && (a + b)[1..] == a[1..] + b;
      LoadFilesAppend(LoadFile(reg, a[0], dflt).0, a[1..], b, dflt);
    }
  }

  /** Keys never disappear: whatever happens, every key of the registry
      before loading is still there afterwards. */
  lemma {:induction false} LoadFilesKeepsKeys(reg: map<string, string>, files: seq<SqlFile>, dflt: string)
    ensures reg.Keys <= LoadFiles(reg, files, dflt).0.Keys
    decreases |files|
  {
    if files != [] {
      LoadFilesKeepsKeys(LoadFile(reg, files[0], dflt).0, files[1..], dflt);
    }
  }
}
