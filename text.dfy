/** The string clean-up the mapper applies to statement text: Go's
    `strings.TrimSpace`, the regular-expression rewrite `\s+` -> " ", and
    the newline clean-up the statement loader applies to element text. */
module Text {

  /** Go's `unicode.IsSpace`, which `strings.TrimSpace` uses. */
  predicate IsSpace(c: char) {
    c == '\t' || c == '\n' || c == '\U{0B}' || c == '\U{0C}' || c == '\r' || c == ' '
    || c == '\U{85}' || c == '\U{A0}' || c == '\U{1680}'
    || ('\U{2000}' <= c <= '\U{200A}')
    || c == '\U{2028}' || c == '\U{2029}' || c == '\U{202F}' || c == '\U{205F}' || c == '\U{3000}'
  }

  /** The RE2 class `\s`, which is only `[\t\n\f\r ]` (no vertical tab). */
  predicate IsRegexSpace(c: char) {
    c == '\t' || c == '\n' || c == '\U{0C}' || c == '\r' || c == ' '
  }

  // ---------------------------------------------------------------- trimming

  function TrimLeft(s: string): (r: string)
    ensures |r| <= |s|
  {
    if s != [] && IsSpace(s[0]) then TrimLeft(s[1..]) else s
  }

  /** TrimLeft drops a prefix made only of spaces and stops at the first
      character that is not one. */
  lemma {:induction false} TrimLeftSpec(s: string)
    ensures var r := TrimLeft(s);
      && r == s[|s| - |r|..]
      && (forall k :: 0 <= k < |s| - |r| ==> IsSpace(s[k]))
      && (r == [] || !IsSpace(r[0]))
    decreases |s|
  {
    if s != [] && IsSpace(s[0]) {
      TrimLeftSpec(s[1..]);
    }
  }

  function TrimRight(s: string): (r: string)
    ensures |r| <= |s|
  {
    if s != [] && IsSpace(s[|s| - 1]) then TrimRight(s[..|s| - 1]) else s
  }

  lemma {:induction false} TrimRightSpec(s: string)
    ensures var r := TrimRight(s);
      && r == s[..|r|]
      && (forall k :: |r| <= k < |s| ==> IsSpace(s[k]))
      && (r == [] || !IsSpace(r[|r| - 1]))
    decreases |s|
  {
    if s != [] && IsSpace(s[|s| - 1]) {
      TrimRightSpec(s[..|s| - 1]);
    }
  }

  /** `strings.TrimSpace`. */
  function TrimSpace(s: string): (r: string)
    ensures |r| <= |s|
  {
    TrimRight(TrimLeft(s))
  }

  predicate Trimmed(s: string) {
    s == [] || (!IsSpace(s[0]) && !IsSpace(s[|s| - 1]))
  }

  /** TrimSpace returns the slice of `s` left after dropping every leading
      and every trailing space; that slice neither starts nor ends with one. */
  lemma TrimSpaceSpec(s: string)
    ensures var r := TrimSpace(s); var i := |s| - |TrimLeft(s)|;
      && i + |r| <= |s|
      && r == s[i..i + |r|]
      && (forall k :: 0 <= k < i ==> IsSpace(s[k]))
      && (forall k :: i + |r| <= k < |s| ==> IsSpace(s[k]))
      && Trimmed(r)
  {
    var l := TrimLeft(s);
    TrimLeftSpec(s);
    var i := |s| - |l|;
    TrimRightSpec(l);
    var r := TrimRight(l);
    assert r == s[i..i + |r|] by {
      assert l == s[i..] && r == l[..|r|];
    }
    forall k | i + |r| <= k < |s|
      ensures IsSpace(s[k])
    {
      assert s[k] == l[k - i];
    }
    if r != [] {
      assert r[0] == l[0];
    }
  }

  lemma TrimSpaceOfTrimmed(s: string)
    requires Trimmed(s)
    ensures TrimSpace(s) == s
  {
    assert TrimLeft(s) == s;
    assert TrimRight(s) == s;
  }

  lemma {:induction false} TrimLeftOfPadded(pre: string, u: string)
    requires forall k :: 0 <= k < |pre| ==> IsSpace(pre[k])
    requires u == [] || !IsSpace(u[0])
    ensures TrimLeft(pre + u) == u
    decreases |pre|
  {
    if pre == [] {
      assert pre + u == u;
    } else {
      assert (pre + u)[0] == pre[0];
      assert (pre + u)[1..] == pre[1..] + u;
      TrimLeftOfPadded(pre[1..], u);
    }
  }

  lemma {:induction false} TrimRightOfPadded(u: string, post: string)
    requires forall k :: 0 <= k < |post| ==> IsSpace(post[k])
    requires u == [] || !IsSpace(u[|u| - 1])
    ensures TrimRight(u + post) == u
    decreases |post|
  {
    if post == [] {
      assert u + post == u;
    } else {
      var w := u + post;
      assert w[|w| - 1] == post[|post| - 1];
      assert w[..|w| - 1] == u + post[..|post| - 1];
      TrimRightOfPadded(u, post[..|post| - 1]);
    }
  }

  /** The converse of TrimSpaceSpec: padding made of spaces around
      trimmed text is exactly what TrimSpace removes. */
  lemma TrimSpaceOfPadded(pre: string, u: string, post: string)
    requires forall k :: 0 <= k < |pre| ==> IsSpace(pre[k])
    requires forall k :: 0 <= k < |post| ==> IsSpace(post[k])
    requires u != [] && Trimmed(u)
    ensures TrimSpace(pre + u + post) == u
  {
    assert pre + u + post == pre + (u + post);
    TrimLeftOfPadded(pre, u + post);
    TrimRightOfPadded(u, post);
  }

  // ------------------------------------------------------ collapsing runs

  function SkipRegexSpaces(s: string): (r: string)
    ensures |r| <= |s|
  {
    if s != [] && IsRegexSpace(s[0]) then SkipRegexSpaces(s[1..]) else s
  }

  lemma {:induction false} SkipRegexSpacesSpec(s: string)
    ensures var r := SkipRegexSpaces(s);
      && r == s[|s| - |r|..]
      && (forall k :: 0 <= k < |s| - |r| ==> IsRegexSpace(s[k]))
      && (r == [] || !IsRegexSpace(r[0]))
    decreases |s|
  {
    if s != [] && IsRegexSpace(s[0]) {
      SkipRegexSpacesSpec(s[1..]);
    }
  }

  /** Every `\s` character is a plain space and no two of them touch. */
  ghost predicate SingleSpaced(s: string) {
    && (forall i :: 0 <= i < |s| && IsRegexSpace(s[i]) ==> s[i] == ' ')
    && (forall i, j :: 0 <= i < j < |s| && j == i + 1 ==> !IsRegexSpace(s[i]) || !IsRegexSpace(s[j]))
  }

  /** `regexp.MustCompile("\\s+").ReplaceAllString(s, " ")`: every maximal
      run of `\s` characters becomes one space. */
  function Collapse(s: string): (r: string)
    ensures |r| <= |s|
    decreases |s|
  {
    if s == [] then []
    else if IsRegexSpace(s[0]) then [' '] + Collapse(SkipRegexSpaces(s[1..]))
    else [s[0]] + Collapse(s[1..])
  }

  lemma {:induction false} CollapseIsSingleSpaced(s: string)
    ensures SingleSpaced(Collapse(s))
    decreases |s|
  {
    if s != [] {
      var t := if IsRegexSpace(s[0]) then SkipRegexSpaces(s[1..]) else s[1..];
      SkipRegexSpacesSpec(s[1..]);
      CollapseIsSingleSpaced(t);
      var c := Collapse(t);
      var r := Collapse(s);
      assert r == [if IsRegexSpace(s[0]) then ' ' else s[0]] + c;
      forall i, j | 0 <= i < j < |r| && j == i + 1
        ensures !IsRegexSpace(r[i]) || !IsRegexSpace(r[j])
      {
        if i > 0 {
          assert r[i] == c[i - 1] && r[j] == c[j - 1];
        } else if IsRegexSpace(s[0]) {
          assert r[j] == c[0];
        }
      }
      forall i | 0 <= i < |r| && IsRegexSpace(r[i]) ensures r[i] == ' ' {
        if i > 0 {
          assert r[i] == c[i - 1];
        }
      }
    }
  }

  lemma {:induction false} CollapseLast(s: string)
    requires s != []
    ensures !IsRegexSpace(s[|s| - 1]) ==> Collapse(s)[|Collapse(s)| - 1] == s[|s| - 1]
    ensures IsRegexSpace(s[|s| - 1]) ==> Collapse(s)[|Collapse(s)| - 1] == ' '
    decreases |s|
  {
    if IsRegexSpace(s[0]) {
      var t := SkipRegexSpaces(s[1..]);
      SkipRegexSpacesSpec(s[1..]);
      assert Collapse(s) == [' '] + Collapse(t);
      if t != [] {
        CollapseLast(t);
        assert t[|t| - 1] == s[|s| - 1];
      } else {
        assert Collapse(s) == [' '];
      }
    } else {
      assert Collapse(s) == [s[0]] + Collapse(s[1..]);
      if |s| > 1 {
        CollapseLast(s[1..]);
        assert s[1..][|s| - 2] == s[|s| - 1];
      }
    }
  }

  lemma SingleSpacedTail(s: string)
    requires s != [] && SingleSpaced(s)
    ensures SingleSpaced(s[1..])
  {
    var t := s[1..];
    forall i, j | 0 <= i < j < |t| && j == i + 1
      ensures !IsRegexSpace(t[i]) || !IsRegexSpace(t[j])
    {
      assert t[i] == s[i + 1] && t[j] == s[j + 1];
    }
  }

  lemma {:induction false} CollapseOfSingleSpaced(s: string)
    requires SingleSpaced(s)
    ensures Collapse(s) == s
    decreases |s|
  {
    if s != [] {
      var t := s[1..];
      SingleSpacedTail(s);
      CollapseOfSingleSpaced(t);
      if IsRegexSpace(s[0]) {
        assert s[0] == ' ';
        assert t == [] || !IsRegexSpace(t[0]);
        assert SkipRegexSpaces(t) == t;
        assert Collapse(s) == [' '] + Collapse(t);
      } else {
        assert Collapse(s) == [s[0]] + Collapse(t);
      }
      assert s == [s[0]] + t;
    }
  }

  /** The characters that are not whitespace, in order. */
  function Visible(s: string): (r: string)
    ensures forall k :: 0 <= k < |r| ==> !IsSpace(r[k])
  {
    if s == [] then []
    else if IsSpace(s[0]) then Visible(s[1..])
    else [s[0]] + Visible(s[1..])
  }

  lemma {:induction false} VisibleAppend(a: string, b: string)
    ensures Visible(a + b) == Visible(a) + Visible(b)
    decreases |a|
  {
    if a != [] {
      assert (a + b)[0] == a[0];
      assert (a + b)[1..] == a[1..] + b;
      VisibleAppend(a[1..], b);
    } else {
      assert a + b == b;
    }
  }

  lemma {:induction false} VisibleOfSpaces(s: string)
    requires forall k :: 0 <= k < |s| ==> IsSpace(s[k])
    ensures Visible(s) == []
    decreases |s|
  {
    if s != [] {
      VisibleOfSpaces(s[1..]);
    }
  }

  /** Collapsing changes whitespace only: the visible text is kept, in order. */
  lemma {:induction false} CollapseKeepsVisible(s: string)
    ensures Visible(Collapse(s)) == Visible(s)
    decreases |s|
  {
    if s != [] {
      if IsRegexSpace(s[0]) {
        var t := SkipRegexSpaces(s[1..]);
        SkipRegexSpacesSpec(s[1..]);
        CollapseKeepsVisible(t);
        var run := s[1..][..|s[1..]| - |t|];
        assert s[1..] == run + t;
        VisibleOfSpaces(run);
        VisibleAppend(run, t);
        assert Visible([' '] + Collapse(t)) == Visible(Collapse(t));
      } else {
        CollapseKeepsVisible(s[1..]);
      }
    }
  }

  /** Trimming also changes whitespace only. */
  lemma TrimSpaceKeepsVisible(s: string)
    ensures Visible(TrimSpace(s)) == Visible(s)
  {
    var r := TrimSpace(s);
    var i := |s| - |TrimLeft(s)|;
    TrimSpaceSpec(s);
    assert s == s[..i] + r + s[i + |r|..];
    VisibleOfSpaces(s[..i]);
    VisibleOfSpaces(s[i + |r|..]);
    VisibleAppend(s[..i] + r, s[i + |r|..]);
    VisibleAppend(s[..i], r);
  }

  // ------------------------------------------------------ SQL normal form

  /** Trimmed, and single-spaced: the form every built statement has. */
  ghost predicate IsNormalSql(s: string) {
    Trimmed(s) && SingleSpaced(s)
  }

  /** `reg.ReplaceAllString(strings.TrimSpace(val), " ")`, the post-render
      step of every `buildSql`. */
  function NormalizeSql(s: string): string {
    Collapse(TrimSpace(s))
  }

  lemma NormalizeSqlIsNormal(s: string)
    ensures IsNormalSql(NormalizeSql(s))
    ensures Visible(NormalizeSql(s)) == Visible(s)
  {
    var t := TrimSpace(s);
    TrimSpaceSpec(s);
    if t != [] {
      CollapseLast(t);
    }
    CollapseIsSingleSpaced(t);
    CollapseKeepsVisible(t);
    TrimSpaceKeepsVisible(s);
  }

  /** Statements already in normal form are left alone. */
  lemma NormalizeSqlOfNormal(s: string)
    ensures IsNormalSql(s) ==> NormalizeSql(s) == s
  {
    if IsNormalSql(s) {
      TrimSpaceOfTrimmed(s);
      CollapseOfSingleSpaced(s);
    }
  }

  lemma NormalizeSqlIdempotent(s: string)
    ensures NormalizeSql(NormalizeSql(s)) == NormalizeSql(s)
  {
    NormalizeSqlIsNormal(s);
    NormalizeSqlOfNormal(NormalizeSql(s));
  }

  lemma {:induction false} CollapseWord(w: string, rest: string)
    requires forall k :: 0 <= k < |w| ==> !IsRegexSpace(w[k])
    ensures Collapse(w + rest) == w + Collapse(rest)
    decreases |w|
  {
    if w == [] {
      assert w + rest == rest;
    } else {
      assert (w + rest)[0] == w[0];
      assert (w + rest)[1..] == w[1..] + rest;
      CollapseWord(w[1..], rest);
      assert w == [w[0]] + w[1..];
    }
  }

  lemma {:induction false} SkipRun(run: string, rest: string)
    requires forall k :: 0 <= k < |run| ==> IsRegexSpace(run[k])
    requires rest == [] || !IsRegexSpace(rest[0])
    ensures SkipRegexSpaces(run + rest) == rest
    decreases |run|
  {
    if run == [] {
      assert run + rest == rest;
    } else {
      assert (run + rest)[0] == run[0];
      assert (run + rest)[1..] == run[1..] + rest;
      SkipRun(run[1..], rest);
    }
  }

  lemma CollapseRun(run: string, rest: string)
    requires run != [] && forall k :: 0 <= k < |run| ==> IsRegexSpace(run[k])
    requires rest == [] || !IsRegexSpace(rest[0])
    ensures Collapse(run + rest) == " " + Collapse(rest)
  {
    assert (run + rest)[0] == run[0];
    assert (run + rest)[1..] == run[1..] + rest;
    SkipRun(run[1..], rest);
  }

  /** A word, a whitespace run and a last word collapse to the two words
      separated by one space. */
  lemma CollapseTwoWords(y: string, r: string, z: string)
    requires y != [] && z != []
    requires forall k :: 0 <= k < |y| ==> !IsRegexSpace(y[k])
    requires forall k :: 0 <= k < |z| ==> !IsRegexSpace(z[k])
    requires r != [] && forall k :: 0 <= k < |r| ==> IsRegexSpace(r[k])
    ensures Collapse(y + (r + z)) == y + (" " + z)
  {
    CollapseWord(z, []);
    assert z + [] == z;
    CollapseRun(r, z);
    var t := r + z;
    assert t[0] == r[0];
    CollapseWord(y, t);
  }

  /** Three words separated by two whitespace runs collapse to the words
      separated by single spaces. */
  lemma CollapseThreeWords(x: string, r1: string, y: string, r2: string, z: string)
    requires x != [] && y != [] && z != []
    requires forall k :: 0 <= k < |x| ==> !IsRegexSpace(x[k])
    requires forall k :: 0 <= k < |y| ==> !IsRegexSpace(y[k])
    requires forall k :: 0 <= k < |z| ==> !IsRegexSpace(z[k])
    requires r1 != [] && forall k :: 0 <= k < |r1| ==> IsRegexSpace(r1[k])
    requires r2 != [] && forall k :: 0 <= k < |r2| ==> IsRegexSpace(r2[k])
    ensures Collapse(x + (r1 + (y + (r2 + z)))) == x + (" " + (y + (" " + z)))
  {
    var t := y + (r2 + z);
    CollapseTwoWords(y, r2, z);
    assert t[0] == y[0];
    CollapseRun(r1, t);
    var u := r1 + t;
    assert u[0] == r1[0];
    CollapseWord(x, u);
  }

  /** A worked example: a template rendering to "  a\n\t b   c " yields
      the statement "a b c". */
  lemma NormalizeSqlExample(s: string)
    requires s == "  a\n\t b   c "
    ensures NormalizeSql(s) == "a b c"
  {
    var u := "a" + ("\n\t " + ("b" + ("   " + "c")));
    assert s == "  " + u + " ";
    TrimSpaceOfPadded("  ", u, " ");
    CollapseThreeWords("a", "\n\t ", "b", "   ", "c");
    assert "a" + (" " + ("b" + (" " + "c"))) == "a b c";
  }

  // ------------------------------------------- statement text clean-up

  /** `strings.Replace(s, "\n", " ", -1)`. */
  function ReplaceNewlines(s: string): (r: string)
    ensures |r| == |s|
    ensures forall k :: 0 <= k < |s| ==> r[k] == (if s[k] == '\n' then ' ' else s[k])
  {
    if s == [] then [] else [if s[0] == '\n' then ' ' else s[0]] + ReplaceNewlines(s[1..])
  }

  /** `strings.Trim(s, "\n")`. */
  function TrimNewlines(s: string): (r: string)
    ensures |r| <= |s|
  {
    if s != [] && s[0] == '\n' then TrimNewlines(s[1..])
    else if s != [] && s[|s| - 1] == '\n' then TrimNewlines(s[..|s| - 1])
    else s
  }

  lemma TrimNewlinesNoop(s: string)
    requires '\n' !in s
    ensures TrimNewlines(s) == s
  {
  }

  /** The text a statement element contributes: newlines become spaces,
      then newlines and whitespace are trimmed from both ends. */
  function CleanStatement(text: string): string {
    TrimSpace(TrimNewlines(ReplaceNewlines(text)))
  }

  lemma CleanStatementShape(text: string)
    ensures '\n' !in CleanStatement(text)
    ensures Trimmed(CleanStatement(text))
    ensures CleanStatement(text) == TrimSpace(ReplaceNewlines(text))
    ensures Visible(CleanStatement(text)) == Visible(text)
  {
    var r := ReplaceNewlines(text);
    assert '\n' !in r;
    TrimNewlinesNoop(r);
    TrimSpaceSpec(r);
    NoNewlineInSlice(r, |r| - |TrimLeft(r)|, |r| - |TrimLeft(r)| + |TrimSpace(r)|);
    ReplaceNewlinesKeepsVisible(text);
    TrimSpaceKeepsVisible(r);
  }

  lemma NoNewlineInSlice(s: string, i: nat, j: nat)
    requires i <= j <= |s| && '\n' !in s
    ensures '\n' !in s[i..j]
  {
  }

  lemma {:induction false} ReplaceNewlinesKeepsVisible(s: string)
    ensures Visible(ReplaceNewlines(s)) == Visible(s)
    decreases |s|
  {
    if s != [] {
      ReplaceNewlinesKeepsVisible(s[1..]);
      assert ReplaceNewlines(s) == [if s[0] == '\n' then ' ' else s[0]] + ReplaceNewlines(s[1..]);
    }
  }

  lemma CleanStatementIdempotent(text: string)
    ensures CleanStatement(CleanStatement(text)) == CleanStatement(text)
  {
    var c := CleanStatement(text);
    CleanStatementShape(text);
    assert ReplaceNewlines(c) == c;
    TrimNewlinesNoop(c);
    TrimSpaceOfTrimmed(c);
  }
}
