/** Templates and the template cache.

    The template library itself is not modelled: parsing a template is an
    arbitrary, possibly failing function `parse` and executing one is an
    arbitrary function `exec` that yields the text it wrote together with
    an optional error. What is modelled is the wrapper that only supports
    the "default" template type, the lookup-or-compile discipline every
    `getAndSetTemplate` follows, and the clean-up every `buildSql` applies
    to the rendered text. */
module Templates {
  import opened Types
  import opened Text

  /** `DEFAULT`, the only supported template type. */
  const Default := "default"

  /** What executing a template wrote into its buffer, and its error. The
      text may be partial when there is an error. */
  datatype Rendered = Rendered(text: string, err: Option<Error>)

  /** What every `buildSql` returns: the statement and an error. */
  datatype Built = Built(sql: string, err: Option<Error>)

  /** A template: its type and the compiled template of type T. */
  datatype Template<T> = Template(typ: string, tpl: T)

  /** `NewTemplate(name, content, typ)`: only the "default" type is
      supported, and its failure is the parser's failure. */
  function NewTemplate<T>(name: string, content: string, typ: string,
                          parse: (string, string) -> Result<T>): (r: Result<Template<T>>)
    ensures typ != Default ==> r == Err(UnsupportedTemplateType(typ))
    ensures typ == Default ==> (r.Ok? <==> parse(name, content).Ok?)
    ensures r.Ok? ==> r.value.typ == Default && r.value.tpl == parse(name, content).value
    ensures r.Err? && typ == Default ==> r.error == parse(name, content).error
  {
    if typ == Default then
      match parse(name, content)
      case Ok(t) => Ok(Template(typ, t))
      case Err(e) => Err(e)
    else
      Err(UnsupportedTemplateType(typ))
  }

  /** `Template.Execute`: runs the compiled template when the type is
      "default", and fails without writing anything otherwise. */
  function Execute<T, D>(t: Template<T>, data: D, exec: (T, D) -> Rendered): (r: Rendered)
    ensures t.typ == Default ==> r == exec(t.tpl, data)
    ensures t.typ != Default ==> r.text == [] && r.err == Some(UnsupportedTemplateExecute)
  {
    if t.typ == Default then exec(t.tpl, data) else Rendered("", Some(UnsupportedTemplateExecute))
  }

  /** Templates made by NewTemplate never take Execute's unsupported-type
      branch. */
  lemma NewTemplateExecutes<T, D>(name: string, content: string, typ: string,
                                  parse: (string, string) -> Result<T>, data: D, exec: (T, D) -> Rendered)
    requires NewTemplate(name, content, typ, parse).Ok?
    ensures Execute(NewTemplate(name, content, typ, parse).value, data, exec)
         == exec(parse(name, content).value, data)
  {
  }

  // -------------------------------------------------------- template cache

  /** The lookup-or-compile step of `getAndSetTemplate` on a cache keyed by
      statement key. `compiled` is what compiling would give; it is used
      only on a miss. The answer is the template or the compile error, and
      the new cache. */
  function CacheGet<T>(cache: map<string, T>, key: string, compiled: Result<T>): (r: (Result<T>, map<string, T>))
    ensures key in cache ==> r == (Ok(cache[key]), cache)
    ensures key !in cache ==> r.0 == compiled
    ensures r.0.Ok? ==> key in r.1 && r.1[key] == r.0.value
    ensures r.0.Err? ==> r.1 == cache
    ensures r.1.Keys == cache.Keys + (if r.0.Ok? then {key} else {})
    ensures forall k :: k in cache ==> k in r.1 && r.1[k] == cache[k]
  {
    if key in cache then (Ok(cache[key]), cache)
    else match compiled
      case Err(e) => (Err(e), cache)
      case Ok(t) => (Ok(t), cache[key := t])
  }

  /** Compiling happens at most once per key: after a successful lookup,
      a second lookup of the same key answers the same template, whatever
      compiling would give then, and leaves the cache alone. */
  lemma CacheGetTwice<T>(cache: map<string, T>, key: string, first: Result<T>, second: Result<T>)
    requires CacheGet(cache, key, first).0.Ok?
    ensures var (t, c1) := CacheGet(cache, key, first);
      CacheGet(c1, key, second) == (t, c1)
  {
  }

  /** A hit does not depend on what compiling would give, so a statement's
      content is read only the first time its key is looked up. */
  lemma CacheHitIgnoresContent<T>(cache: map<string, T>, key: string, c1: Result<T>, c2: Result<T>)
    requires key in cache
    ensures CacheGet(cache, key, c1) == CacheGet(cache, key, c2)
  {
  }

  // ------------------------------------------------------ rendered output

  /** The tail of every `buildSql`: trim the rendered text, collapse its
      whitespace runs, and return it together with the render error. */
  function Finish(r: Rendered): (b: Built)
    ensures b.err == r.err
    ensures b.sql == NormalizeSql(r.text)
    ensures IsNormalSql(b.sql)
    ensures Visible(b.sql) == Visible(r.text)
    ensures IsNormalSql(r.text) ==> b.sql == r.text
  {
    NormalizeSqlIsNormal(r.text);
    NormalizeSqlOfNormal(r.text);
    Built(NormalizeSql(r.text), r.err)
  }

  /** Finishing twice finishes once. */
  lemma FinishIdempotent(r: Rendered)
    ensures Finish(Rendered(Finish(r).sql, r.err)) == Finish(r)
  {
  }
}
