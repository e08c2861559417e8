/**
Name patterns: the glob that a user writes, and the LIKE pattern with escape `\` that the
store sends to SQLite. Both meanings are stated for any notion of equal characters; the
one SQLite uses ignores the case of ASCII letters.
*/
module GlobLike {
  import opened Text

  type Eq = (char, char) -> bool

  predicate Glob(eq: Eq, p: string, s: string)
    decreases |p| + |s|
  {
    if p == "" then s == ""
    else if p[0] == '*' then Glob(eq, p[1..], s) || (s != "" && Glob(eq, p, s[1..]))
    else s != "" && (p[0] == '?' || eq(p[0], s[0])) && Glob(eq, p[1..], s[1..])
  }

  /** `s LIKE p ESCAPE '\'`; an escape at the end of the pattern matches nothing. */
  predicate Like(eq: Eq, p: string, s: string)
    decreases |p| + |s|
  {
    if p == "" then s == ""
    else if p[0] == '%' then Like(eq, p[1..], s) || (s != "" && Like(eq, p, s[1..]))
    else if p[0] == '\\' then |p| > 1 && s != "" && eq(p[1], s[0]) && Like(eq, p[2..], s[1..])
    else s != "" && (p[0] == '_' || eq(p[0], s[0])) && Like(eq, p[1..], s[1..])
  }

  function LikeOf(c: char): string {
    match c
    case '*' => "%"
    case '?' => "_"
    case '%' => "\\%"
    case '_' => "\\_"
    case '\\' => "\\\\"
    case _ => [c]
  }

  function Translate(p: string): string {
    if p == "" then "" else LikeOf(p[0]) + Translate(p[1..])
  }

  lemma {:induction false} TranslateSnoc(p: string, c: char)
    ensures Translate(p + [c]) == Translate(p) + LikeOf(c)
    decreases |p|
  {
    if p == "" {
      assert p + [c] == [c] && [c][1..] == "";
    } else {
      assert (p + [c])[1..] == p[1..] + [c];
      TranslateSnoc(p[1..], c);
    }
  }

  method GlobToLike(pattern: string) returns (b: string)
    ensures b == Translate(pattern)
  {
    b := "";
    for i := 0 to |pattern|
      invariant b == Translate(pattern[..i])
    {
      var r := pattern[i];
      assert pattern[..i + 1] == pattern[..i] + [r];
      TranslateSnoc(pattern[..i], r);
      match r
      case '*' => b := b + ['%'];
      case '?' => b := b + ['_'];
      case '%' => b := b + ['\\'] + [r];
      case '_' => b := b + ['\\'] + [r];
      case '\\' => b := b + ['\\'] + [r];
      case _ => b := b + [r];
    }
    assert pattern[..|pattern|] == pattern;
  }

  /** Every escape is followed by a character that needs one. */
  predicate Escapes(p: string) {
    if p == "" then true
    else if p[0] == '\\' then |p| > 1 && p[1] in "%_\\" && Escapes(p[2..])
    else Escapes(p[1..])
  }

  lemma {:induction false} WellEscaped(p: string)
    ensures Escapes(Translate(p))
  {
    if p != "" {
      WellEscaped(p[1..]);
      var head, rest := LikeOf(p[0]), Translate(p[1..]);
      assert (head + rest)[|head|..] == rest;
      assert |head| == 2 ==> (head + rest)[1] == head[1];
    }
  }

  /** The translation means what the glob means, for every pattern and every name. */
  lemma {:induction false} LikeIsGlob(eq: Eq, p: string, s: string)
    ensures Like(eq, Translate(p), s) <==> Glob(eq, p, s)
    decreases |p| + |s|
  {
    if p != "" {
      var head, rest := LikeOf(p[0]), Translate(p[1..]);
      assert (head + rest)[|head|..] == rest;
      assert |head| == 2 ==> (head + rest)[1] == head[1];
      if p[0] == '*' {
        LikeIsGlob(eq, p[1..], s);
        if s != "" {
          LikeIsGlob(eq, p, s[1..]);
        }
      } else if s != "" {
        LikeIsGlob(eq, p[1..], s[1..]);
      }
    }
  }

  // ---------------------------------------------------------------- ListVMsMatching

  /** Equal characters for SQLite. */
  function Folded(a: char, b: char): bool {
    LowerChar(a) == LowerChar(b)
  }

  /** The query's condition: the clauses joined by `or`, or none at all. */
  predicate Where(clauses: seq<string>, name: string) {
    clauses == [] || exists i :: 0 <= i < |clauses| && Like(Folded, clauses[i], name)
  }

  /** What the caller asked for: any of the patterns, or everything when there are none. */
  predicate Wanted(patterns: seq<string>, name: string) {
    patterns == [] || exists i :: 0 <= i < |patterns| && Glob(Folded, patterns[i], name)
  }

  lemma WhereIsWanted(clauses: seq<string>, patterns: seq<string>, name: string)
    requires |clauses| == |patterns| && forall i :: 0 <= i < |patterns| ==> clauses[i] == Translate(patterns[i])
    ensures Where(clauses, name) <==> Wanted(patterns, name)
  {
    forall i | 0 <= i < |patterns| ensures Like(Folded, clauses[i], name) <==> Glob(Folded, patterns[i], name) {
      LikeIsGlob(Folded, patterns[i], name);
    }
  }

  method Clauses(patterns: seq<string>) returns (clauses: seq<string>)
    ensures |clauses| == |patterns| && forall i :: 0 <= i < |patterns| ==> clauses[i] == Translate(patterns[i])
  {
    clauses := [];
    for i := 0 to |patterns|
      invariant |clauses| == i && forall k :: 0 <= k < i ==> clauses[k] == Translate(patterns[k])
    {
      var like := GlobToLike(patterns[i]);
      clauses := clauses + [like];
    }
  }

  predicate Increasing(idx: seq<nat>) {
    forall i, j :: 0 <= i < j < |idx| ==> idx[i] < idx[j]
  }

  /** The positions of the wanted names among the first `n`, in order. */
  ghost predicate Positions(names: seq<string>, patterns: seq<string>, n: nat, idx: seq<nat>) {
    && n <= |names| && Increasing(idx)
    && (forall j: nat :: j in idx <==> j < n && Wanted(patterns, names[j]))
  }

  /** The names at these positions. */
  predicate Listed(names: seq<string>, idx: seq<nat>, found: seq<string>) {
    |found| == |idx| && forall i :: 0 <= i < |idx| ==> idx[i] < |names| && found[i] == names[idx[i]]
  }

  /** `ListVMsMatching` on the names of the table, in the order of the query: each wanted row once, in that order. */
  method ListVMsMatching(names: seq<string>, patterns: seq<string>) returns (found: seq<string>)
    ensures exists idx :: Positions(names, patterns, |names|, idx) && Listed(names, idx, found)
  {
    var clauses := Clauses(patterns);
    ghost var idx: seq<nat> := [];
    found := [];
    for j := 0 to |names|
      invariant Positions(names, patterns, j, idx) && Listed(names, idx, found)
    {
      WhereIsWanted(clauses, patterns, names[j]);
      assert forall i :: 0 <= i < |idx| ==> idx[i] in idx;
      if Where(clauses, names[j]) {
        found := found + [names[j]];
        idx := idx + [j];
      }
    }
  }
}
