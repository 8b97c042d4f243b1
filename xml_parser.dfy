/** Loading a statement file: `XmlParser.Parse` in `parser/xml_parser.go`.

    XML parsing itself is not modelled. A file is given as what the XML
    library makes of it: malformed, or a document whose `sqlmap` root (if
    there is one) carries an optional `namespace` attribute and its `sql`
    elements, each with an optional `id` attribute and its text. */
module XmlParser {
  import opened Types
  import opened Text

  /** `DEFAULT_NAMESPACE`. */
  const DefaultNamespace := "default_namespace"

  datatype SqlElement = SqlElement(id: Option<string>, text: string)
  datatype SqlMapRoot = SqlMapRoot(namespace: Option<string>, sqls: seq<SqlElement>)
  datatype XmlInput = Malformed(cause: string) | Document(root: Option<SqlMapRoot>)

  /** What Parse returns: a map, which is nil (`None`) only when the root is
      missing, and an error. */
  datatype Parsed = Parsed(m: Option<map<string, string>>, err: Option<Error>)

  /** The key a statement is registered under. */
  function FullId(namespace: string, id: string): (k: string)
    ensures |k| == |namespace| + 1 + |id| && k[|namespace|] == '_'
    ensures k[..|namespace|] == namespace && k[|namespace| + 1..] == id
  {
    namespace + "_" + id
  }

  /** The namespace of a root: its attribute, or `dflt` when the attribute
      is absent or empty. */
  function NamespaceOf(root: SqlMapRoot, dflt: string): (ns: string)
    ensures root.namespace.Some? && root.namespace.value != "" ==> ns == root.namespace.value
    ensures root.namespace.None? || root.namespace.value == "" ==> ns == dflt
  {
    var ns := root.namespace.GetOr(dflt);
    if ns == "" then dflt else ns
  }

  /** The loop over the `sql` elements, from the map `ret` built so far. */
  function ParseFrom(ns: string, els: seq<SqlElement>, ret: map<string, string>): (p: Parsed)
    ensures p.m.Some?
    decreases |els|
  {
    if els == [] then Parsed(Some(ret), None)
    else
      var id := els[0].id.GetOr("");
      if id == "" then Parsed(Some(ret), Some(MissingId(ns)))
      else
        var full := FullId(ns, id);
        if MapGet(ret, full, "") == full then Parsed(Some(ret), Some(DuplicateId(ns, full)))
        else ParseFrom(ns, els[1..], ret[full := CleanStatement(els[0].text)])
  }

  /** What Parse answers for a file, with `dflt` as the default namespace. */
  function ParseSpec(input: XmlInput, dflt: string): (p: Parsed)
    ensures input.Malformed? ==> p == Parsed(Some(map[]), Some(Driver(input.cause)))
    ensures input.Document? && input.root.None? ==> p == Parsed(None, Some(MissingRoot))
    ensures input.Document? && input.root.Some? && input.root.value.sqls == [] ==> p == Parsed(Some(map[]), None)
  {
    match input
    case Malformed(cause) => Parsed(Some(map[]), Some(Driver(cause)))
    case Document(None) => Parsed(None, Some(MissingRoot))
    case Document(Some(root)) => ParseFrom(NamespaceOf(root, dflt), root.sqls, map[])
  }

  /** `Parse(xml)`, with the default namespace a parameter so that the copy
      in `engine/engine.go` can use its own `DefaultNamespace`. */
  method Parse(input: XmlInput, dflt: string) returns (p: Parsed)
    ensures p == ParseSpec(input, dflt)
  {
    var ret: map<string, string> := map[];
    if input.Malformed? {
      return Parsed(Some(ret), Some(Driver(input.cause)));
    }
    if input.root.None? {
      return Parsed(None, Some(MissingRoot));
    }
    var root := input.root.value;
    var namespace := root.namespace.GetOr(dflt);
    if namespace == "" {
      namespace := dflt;
    }
    var els := root.sqls;
    if |els| < 1 {
      return Parsed(Some(ret), None);
    }
    for i := 0 to |els|
      invariant ParseFrom(namespace, els[i..], ret) == ParseSpec(input, dflt)
    {
      assert els[i..][1..] == els[i + 1..];
      var id := els[i].id.GetOr("");
      if id == "" {
        return Parsed(Some(ret), Some(MissingId(namespace)));
      }
      var fullId := namespace + "_" + id;
      if MapGet(ret, fullId, "") == fullId {
        return Parsed(Some(ret), Some(DuplicateId(namespace, fullId)));
      }
      var val := ReplaceNewlines(els[i].text);
      val := TrimNewlines(val);
      val := TrimSpace(val);
      ret := ret[fullId := val];
    }
    return Parsed(Some(ret), None);
  }

  // ------------------------------------------------------------ properties

  /** The loop returns a map; it only adds entries to the one it starts
      from, and each key it adds is the full id of one of the elements. */
  lemma {:induction false} ParseFromKeys(ns: string, els: seq<SqlElement>, ret: map<string, string>)
    ensures var p := ParseFrom(ns, els, ret);
      && ret.Keys <= p.m.value.Keys
      && forall k :: k in p.m.value && k !in ret ==>
           exists j :: 0 <= j < |els| && els[j].id.Some? && els[j].id.value != "" && k == FullId(ns, els[j].id.value)
    decreases |els|
  {
    if els != [] {
      var id := els[0].id.GetOr("");
      if id != "" {
        var full := FullId(ns, id);
        if MapGet(ret, full, "") != full {
          var ret' := ret[full := CleanStatement(els[0].text)];
          ParseFromKeys(ns, els[1..], ret');
          var m := ParseFrom(ns, els, ret).m.value;
          forall k | k in m && k !in ret
            ensures exists j :: 0 <= j < |els| && els[j].id.Some? && els[j].id.value != "" && k == FullId(ns, els[j].id.value)
          {
            if k == full {
              assert els[0].id.Some? && els[0].id.value == id;
            } else {
              var j :| 0 <= j < |els[1..]| && els[1..][j].id.Some? && els[1..][j].id.value != ""
                       && k == FullId(ns, els[1..][j].id.value);
              assert els[j + 1] == els[1..][j];
            }
          }
        }
      }
    }
  }

  /** Every stored statement text is cleaned: no newline, and no leading or
      trailing whitespace. */
  lemma {:induction false} ParseFromValues(ns: string, els: seq<SqlElement>, ret: map<string, string>)
    requires forall k :: k in ret ==> '\n' !in ret[k] && Trimmed(ret[k])
    ensures var m := ParseFrom(ns, els, ret).m.value;
      forall k :: k in m ==> '\n' !in m[k] && Trimmed(m[k])
    decreases |els|
  {
    if els != [] {
      var id := els[0].id.GetOr("");
      if id != "" {
        var full := FullId(ns, id);
        if MapGet(ret, full, "") != full {
          var v := CleanStatement(els[0].text);
          CleanStatementShape(els[0].text);
          var ret' := ret[full := v];
          assert forall k :: k in ret' ==> '\n' !in ret'[k] && Trimmed(ret'[k]);
          ParseFromValues(ns, els[1..], ret');
          assert ParseFrom(ns, els, ret) == ParseFrom(ns, els[1..], ret');
        }
      }
    }
  }

  /** For a whole file: every key is the namespace, "_" and the id of one
      of the root's elements, and every text is cleaned. */
  lemma ParseEntries(input: XmlInput, dflt: string)
    requires input.Document? && input.root.Some?
    ensures var m := ParseSpec(input, dflt).m.value;
      var root := input.root.value;
      && (forall k :: k in m ==>
            exists j :: 0 <= j < |root.sqls| && root.sqls[j].id.Some? && root.sqls[j].id.value != ""
                        && k == FullId(NamespaceOf(root, dflt), root.sqls[j].id.value))
      && (forall k :: k in m ==> '\n' !in m[k] && Trimmed(m[k]))
  {
    var root := input.root.value;
    ParseFromKeys(NamespaceOf(root, dflt), root.sqls, map[]);
    ParseFromValues(NamespaceOf(root, dflt), root.sqls, map[]);
  }

  /** When the loop runs to the end, the text stored under a key is that of
      the last element with that id. */
  lemma {:induction false} ParseFromLastWins(ns: string, els: seq<SqlElement>, ret: map<string, string>, j: nat)
    requires j < |els| && els[j].id.Some? && els[j].id.value != ""
    requires forall k :: j < k < |els| ==> els[k].id != els[j].id
    requires ParseFrom(ns, els, ret).err.None?
    ensures var m := ParseFrom(ns, els, ret).m.value;
      FullId(ns, els[j].id.value) in m && m[FullId(ns, els[j].id.value)] == CleanStatement(els[j].text)
    decreases |els|
  {
    var id := els[0].id.GetOr("");
    var full := FullId(ns, id);
    var ret' := ret[full := CleanStatement(els[0].text)];
    if j == 0 {
      LaterKeysKept(ns, els[1..], ret', full, els[0].id.value);
    } else {
      assert forall k :: j - 1 < k < |els[1..]| ==> els[1..][k].id != els[1..][j - 1].id;
      ParseFromLastWins(ns, els[1..], ret', j - 1);
    }
  }

  /** An entry whose id no later element repeats survives the rest of the
      loop unchanged. */
  lemma {:induction false} LaterKeysKept(ns: string, els: seq<SqlElement>, ret: map<string, string>, key: string, id: string)
    requires key in ret && key == FullId(ns, id)
    requires forall k :: 0 <= k < |els| ==> els[k].id != Some(id)
    ensures var m := ParseFrom(ns, els, ret).m.value;
      key in m && m[key] == ret[key]
    decreases |els|
  {
    if els != [] {
      var eid := els[0].id.GetOr("");
      if eid != "" {
        var full := FullId(ns, eid);
        if MapGet(ret, full, "") != full {
          assert eid != id;
          FullIdInjective(ns, eid, id);
          LaterKeysKept(ns, els[1..], ret[full := CleanStatement(els[0].text)], key, id);
        }
      }
    }
  }

  lemma FullIdInjective(ns: string, a: string, b: string)
    ensures FullId(ns, a) == FullId(ns, b) ==> a == b
  {
    if FullId(ns, a) == FullId(ns, b) {
      assert a == FullId(ns, a)[|ns| + 1..];
    }
  }

  /** The duplicate check compares the stored text, not the presence of the
      key: a repeated id whose first text is not its own key silently
      replaces the first. */
  lemma RepeatedIdOverwrites(ns: string, id: string, t1: string, t2: string)
    requires id != "" && CleanStatement(t1) != FullId(ns, id)
    ensures ParseFrom(ns, [SqlElement(Some(id), t1), SqlElement(Some(id), t2)], map[])
         == Parsed(Some(map[FullId(ns, id) := CleanStatement(t2)]), None)
  {
    var els := [SqlElement(Some(id), t1), SqlElement(Some(id), t2)];
    var full := FullId(ns, id);
    var m1 := map[full := CleanStatement(t1)];
    assert els[1..] == [SqlElement(Some(id), t2)];
    assert ParseFrom(ns, els[1..], m1) == ParseFrom(ns, [], m1[full := CleanStatement(t2)]);
    assert m1[full := CleanStatement(t2)] == map[full := CleanStatement(t2)];
  }

  /** The duplicate check fires only when the first text equals its key. */
  lemma RepeatedIdRejected(ns: string, id: string, t1: string, t2: string)
    requires id != "" && CleanStatement(t1) == FullId(ns, id)
    ensures ParseFrom(ns, [SqlElement(Some(id), t1), SqlElement(Some(id), t2)], map[])
         == Parsed(Some(map[FullId(ns, id) := FullId(ns, id)]), Some(DuplicateId(ns, FullId(ns, id))))
  {
    var els := [SqlElement(Some(id), t1), SqlElement(Some(id), t2)];
    assert els[1..] == [SqlElement(Some(id), t2)];
  }

  /** An element without an id stops the loop with an error, returning the
      entries of the elements before it. */
  lemma MissingIdKeepsEarlier(ns: string, id: string, t1: string, t2: string)
    requires id != ""
    ensures ParseFrom(ns, [SqlElement(Some(id), t1), SqlElement(None, t2)], map[])
         == Parsed(Some(map[FullId(ns, id) := CleanStatement(t1)]), Some(MissingId(ns)))
  {
    var els := [SqlElement(Some(id), t1), SqlElement(None, t2)];
    assert els[1..] == [SqlElement(None, t2)];
  }

  /** Parsing a list of elements is parsing a prefix that raised no error,
      then the rest from the map the prefix built. */
  lemma {:induction false} ParseFromAppend(ns: string, a: seq<SqlElement>, b: seq<SqlElement>, ret: map<string, string>)
    requires ParseFrom(ns, a, ret).err.None?
    ensures ParseFrom(ns, a + b, ret) == ParseFrom(ns, b, ParseFrom(ns, a, ret).m.value)
    decreases |a|
  {
    if a == [] {
      assert a + b == b;
    } else {
      assert (a + b)[0] == a[0] && (a + b)[1..] == a[1..] + b;
      var full := FullId(ns, a[0].id.GetOr(""));
      ParseFromAppend(ns, a[1..], b, ret[full := CleanStatement(a[0].text)]);
    }
  }

  /** An element at any position without an id (or with an empty one)
      stops the loop with an error, answering exactly the entries the
      elements before it produced. */
  lemma ParseFromStopsAtMissingId(ns: string, els: seq<SqlElement>, ret: map<string, string>, i: nat)
    requires i < |els| && els[i].id.GetOr("") == ""
    requires ParseFrom(ns, els[..i], ret).err.None?
    ensures ParseFrom(ns, els, ret) == Parsed(ParseFrom(ns, els[..i], ret).m, Some(MissingId(ns)))
  {
    assert els == els[..i] + els[i..];
    ParseFromAppend(ns, els[..i], els[i..], ret);
    assert els[i..][0] == els[i];
  }

  /** An element whose full id already maps to the text equal to that full
      id stops the loop with the duplicate error, answering the entries
      built so far. */
  lemma ParseFromStopsAtDuplicate(ns: string, els: seq<SqlElement>, ret: map<string, string>, i: nat)
    requires i < |els| && els[i].id.Some? && els[i].id.value != ""
    requires ParseFrom(ns, els[..i], ret).err.None?
    requires var m := ParseFrom(ns, els[..i], ret).m.value; var full := FullId(ns, els[i].id.value);
      full in m && m[full] == full
    ensures ParseFrom(ns, els, ret)
         == Parsed(ParseFrom(ns, els[..i], ret).m, Some(DuplicateId(ns, FullId(ns, els[i].id.value))))
  {
    assert els == els[..i] + els[i..];
    ParseFromAppend(ns, els[..i], els[i..], ret);
    assert els[i..][0] == els[i];
  }
}
