// Quota paths: "*" is a wildcard and ".*" is accepted as a spelling of it.
module PathRegex {

  // strings.ReplaceAll for a non-empty pattern: scan left to right, replace
  // each occurrence, continue after it.
  function ReplaceAll(s: string, pattern: string, repl: string): string
    requires |pattern| > 0
    decreases |s|
  {
    if |s| < |pattern| then s
    else if s[..|pattern|] == pattern then repl + ReplaceAll(s[|pattern|..], pattern, repl)
    else [s[0]] + ReplaceAll(s[1..], pattern, repl)
  }

  function Collapse(s: string): string { ReplaceAll(s, ".*", "*") }

  function Expand(s: string): string { ReplaceAll(s, "*", ".*") }

  function GetPathRegex(path: string): string { Expand(Collapse(path)) }

  // Every '*' stands right after a '.'.
  predicate Dotted(s: string) {
    forall i :: 0 <= i < |s| && s[i] == '*' ==> 0 < i && s[i - 1] == '.'
  }

  // Expand, one character at a time.
  lemma ExpandStep(s: string)
    requires s != ""
    ensures Expand(s) == (if s[0] == '*' then ".*" else [s[0]]) + Expand(s[1..])
  {
    assert s[..1] == [s[0]];
  }

  // Collapse, one character or one ".*" at a time.
  lemma CollapseStep(s: string)
    requires s != ""
    ensures Collapse(s) == if s[0] == '.' && |s| > 1 && s[1] == '*' then "*" + Collapse(s[2..])
                           else [s[0]] + Collapse(s[1..])
  {
    if |s| > 1 {
      assert s[..2] == [s[0], s[1]];
    } else {
      assert s == [s[0]] + s[1..];
    }
  }

  lemma {:induction false} CollapseUndoesExpand(s: string)
    ensures Collapse(Expand(s)) == s
    decreases |s|
  {
    if s != "" {
      ExpandStep(s);
      var e := Expand(s);
      CollapseUndoesExpand(s[1..]);
      if s[0] == '*' {
        assert e[2..] == Expand(s[1..]);
      } else {
        assert e[1..] == Expand(s[1..]);
        if s[1..] != "" { ExpandStep(s[1..]); }
      }
      CollapseStep(e);
      assert s == [s[0]] + s[1..];
    }
  }

  lemma {:induction false} ExpandIsDotted(s: string)
    ensures Dotted(Expand(s))
    decreases |s|
  {
    if s != "" {
      ExpandStep(s);
      ExpandIsDotted(s[1..]);
      var h := if s[0] == '*' then ".*" else [s[0]];
      var t := Expand(s[1..]);
      forall i | 0 <= i < |h + t| && (h + t)[i] == '*'
        ensures 0 < i && (h + t)[i - 1] == '.'
      {
        if i >= |h| { assert t[i - |h|] == '*'; assert (h + t)[i - 1] == t[i - |h| - 1]; }
      }
    }
  }

  // Taking the dots away and putting them back changes nothing exactly when
  // no wildcard was missing its dot.
  lemma {:induction false} ExpandUndoesCollapse(s: string)
    requires Dotted(s)
    ensures Expand(Collapse(s)) == s
    decreases |s|
  {
    if s != "" {
      CollapseStep(s);
      var k := if s[0] == '.' && |s| > 1 && s[1] == '*' then 2 else 1;
      var t := s[k..];
      forall i | 0 <= i < |t| && t[i] == '*' ensures 0 < i && t[i - 1] == '.' {
        assert s[i + k] == '*' && s[i + k - 1] == '.';
      }
      ExpandUndoesCollapse(t);
      ExpandStep(Collapse(s));
      assert Collapse(s)[1..] == Collapse(t);
      assert s == s[..k] + t;
    }
  }

  lemma PathRegexIdempotent(path: string)
    ensures GetPathRegex(GetPathRegex(path)) == GetPathRegex(path)
  {
    CollapseUndoesExpand(Collapse(path));
  }

  lemma PathRegexFixedIffDotted(path: string)
    ensures Dotted(GetPathRegex(path))
    ensures GetPathRegex(path) == path <==> Dotted(path)
  {
    ExpandIsDotted(Collapse(path));
    if Dotted(path) { ExpandUndoesCollapse(path); }
  }

  // Two spellings are the same filter exactly when they collapse to the same glob.
  lemma SameRegexIffSameGlob(p: string, q: string)
    ensures GetPathRegex(p) == GetPathRegex(q) <==> Collapse(p) == Collapse(q)
  {
    CollapseUndoesExpand(Collapse(p));
    CollapseUndoesExpand(Collapse(q));
  }
}
