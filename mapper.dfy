/** `SqlTemplate`: a registered statement together with its lazily
    compiled template, as `engine/core.go` and `engine/common.go` keep it. */
module Mapper {
  import opened Types

  class SqlTemplate<T> {
    /** The statement's template text. */
    const sql: string
    /** The compiled template, once compiling has succeeded. */
    var tpl: Option<T>

    constructor (sql: string)
      ensures this.sql == sql && tpl.None?
    {
      this.sql := sql;
      tpl := None;
    }

    /** The template `getAndSetTemplate` answers in the current state:
        the cached one, or else what compiling `sql` under `key` gives.
        `compile` stands for `tplBuilder.New`. */
    function Resolved(key: string, compile: (string, string) -> Result<T>): (r: Result<T>)
      reads this
      ensures tpl.Some? ==> r == Ok(tpl.value)
      ensures tpl.None? ==> r == compile(key, sql)
    {
      if tpl.Some? then Ok(tpl.value) else compile(key, sql)
    }

    /** `getAndSetTemplate(key, mapper)`: returns the cached template
        without compiling; on a miss compiles, and caches the template
        only when compiling succeeds. */
    method GetAndSetTemplate(key: string, compile: (string, string) -> Result<T>) returns (r: Result<T>)
      modifies this
      ensures r == old(Resolved(key, compile))
      ensures tpl == (if r.Ok? then Some(r.value) else old(tpl))
      ensures old(tpl).Some? ==> tpl == old(tpl)
    {
      if tpl.Some? {
        return Ok(tpl.value);
      }
      r := compile(key, sql);
      if r.Ok? {
        tpl := Some(r.value);
      }
    }
  }

  /** Once a template is cached, what compiling would give no longer
      matters: later lookups answer the cached template. */
  lemma ResolvedOnceCached<T>(m: SqlTemplate<T>, key: string, c1: (string, string) -> Result<T>, c2: (string, string) -> Result<T>)
    requires m.tpl.Some?
    ensures m.Resolved(key, c1) == m.Resolved(key, c2) == Ok(m.tpl.value)
  {
  }
}
