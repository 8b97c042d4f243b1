/** `SqlBuilder` in `builder/sql_builder.go`: a cache of compiled
    templates keyed by statement key, and the rendering of a statement.

    The template package it uses is not part of this model: compiling
    (`t.New(key, content, typ)`) is the parameter `compile`, and executing a
    compiled template is the parameter `exec`. */
module Builder {
  import opened Types
  import opened Text
  import opened Templates

  /** What `BuildSql(key, content, typ, data)` answers with the cache
      `cache`, and the cache afterwards. */
  function BuildStep<T, D>(cache: map<string, T>, key: string, content: string, typ: string, data: D,
                           compile: (string, string, string) -> Result<T>, exec: (T, D) -> Rendered): (r: (Built, map<string, T>))
    ensures IsNormalSql(r.0.sql)
    ensures key in cache ==> r.1 == cache && r.0.err == exec(cache[key], data).err
    ensures key !in cache && compile(key, content, typ).Err? ==>
      r == (Built("", Some(compile(key, content, typ).error)), cache)
    ensures key !in cache && compile(key, content, typ).Ok? ==>
      && r.1 == cache[key := compile(key, content, typ).value]
      && r.0.err == exec(compile(key, content, typ).value, data).err
    ensures forall k :: k in cache ==> k in r.1 && r.1[k] == cache[k]
    ensures r.1.Keys <= cache.Keys + {key}
  {
    var (t, c) := CacheGet(cache, key, compile(key, content, typ));
    if t.Err? then (Built("", Some(t.error)), c) else (Finish(exec(t.value, data)), c)
  }

  /** The text of a successful build is the normalised rendering of the
      template in the cache afterwards. */
  lemma BuildStepRenders<T, D>(cache: map<string, T>, key: string, content: string, typ: string, data: D,
                               compile: (string, string, string) -> Result<T>, exec: (T, D) -> Rendered)
    requires key in cache || compile(key, content, typ).Ok?
    ensures var (b, c) := BuildStep(cache, key, content, typ, data, compile, exec);
      key in c && b == Finish(exec(c[key], data))
  {
  }

  /** On a cache hit the content is ignored: a second build of the same key
      with other content renders the template the first build compiled. */
  lemma {:induction false} SecondBuildIgnoresContent<T, D>(cache: map<string, T>, key: string, typ: string,
                                                          c1: string, d1: D, c2: string, d2: D,
                                                          compile: (string, string, string) -> Result<T>,
                                                          exec: (T, D) -> Rendered)
    requires key in cache || compile(key, c1, typ).Ok?
    ensures var first := if key in cache then cache[key] else compile(key, c1, typ).value;
      var (b1, cache1) := BuildStep(cache, key, c1, typ, d1, compile, exec);
      && BuildStep(cache1, key, c2, typ, d2, compile, exec) == (Finish(exec(first, d2)), cache1)
  {
    var (b1, cache1) := BuildStep(cache, key, c1, typ, d1, compile, exec);
    BuildStepRenders(cache1, key, c2, typ, d2, compile, exec);
  }

  class SqlBuilder<T> {
    /** The compiled templates by statement key. */
    var tplMap: map<string, T>

    /** `New()`: an empty cache. */
    constructor ()
      ensures tplMap == map[]
    {
      tplMap := map[];
    }

    /** `getAndSetTemplate(key, content, typ)`: a cached template is
        answered as it is; on a miss the content is compiled and the
        template stored only when compiling succeeds. */
    method GetAndSetTemplate(key: string, content: string, typ: string,
                             compile: (string, string, string) -> Result<T>) returns (r: Result<T>)
      modifies this
      ensures (r, tplMap) == CacheGet(old(tplMap), key, compile(key, content, typ))
    {
      if key in tplMap {
        return Ok(tplMap[key]);
      }
      r := compile(key, content, typ);
      if r.Err? {
        return;
      }
      tplMap := tplMap[key := r.value];
    }

    /** `BuildSql(key, content, typ, data)`. */
    method BuildSql<D>(key: string, content: string, typ: string, data: D,
                       compile: (string, string, string) -> Result<T>, exec: (T, D) -> Rendered) returns (b: Built)
      modifies this
      ensures (b, tplMap) == BuildStep(old(tplMap), key, content, typ, data, compile, exec)
    {
      var tpl := GetAndSetTemplate(key, content, typ, compile);
      if tpl.Err? {
        return Built("", Some(tpl.error));
      }
      b := Finish(exec(tpl.value, data));
    }
  }
}
