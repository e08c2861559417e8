/** Library functions on strings that several modules share. */
module Text {
  /** `strings.Split` at one character. */
  function SplitOn(s: string, sep: char): (parts: seq<string>)
    ensures |parts| > 0
  {
    if s == "" then [""]
    else
      var rest := SplitOn(s[1..], sep);
      if s[0] == sep then [""] + rest else [[s[0]] + rest[0]] + rest[1..]
  }

  lemma {:induction false} SplitFirst(a: string, sep: char, tail: string)
    requires sep !in a
    ensures SplitOn(a + [sep] + tail, sep) == [a] + SplitOn(tail, sep)
    decreases |a|
  {
    var s := a + [sep] + tail;
    if a == "" {
      assert s[1..] == tail;
    } else {
      assert s[1..] == a[1..] + [sep] + tail;
      SplitFirst(a[1..], sep, tail);
      assert [a[0]] + a[1..] == a;
    }
  }

  lemma {:induction false} SplitNone(a: string, sep: char)
    requires sep !in a
    ensures SplitOn(a, sep) == [a]
    decreases |a|
  {
    if a != "" {
      SplitNone(a[1..], sep);
      assert [a[0]] + a[1..] == a;
    }
  }

  /** The lower-case form of an ASCII letter. */
  function LowerChar(c: char): char {
    if 'A' <= c <= 'Z' then (c as int - 'A' as int + 'a' as int) as char else c
  }

  function Lower(s: string): (l: string)
    ensures |l| == |s| && IsLower(l)
  {
    seq(|s|, i requires 0 <= i < |s| => LowerChar(s[i]))
  }

  predicate IsLower(s: string) {
    forall i :: 0 <= i < |s| ==> LowerChar(s[i]) == s[i]
  }

  lemma LowerSame(s: string)
    requires IsLower(s)
    ensures Lower(s) == s
  {
  }

  /** `strings.TrimSuffix` of one dot. */
  function TrimDot(s: string): string {
    if s != "" && s[|s| - 1] == '.' then s[..|s| - 1] else s
  }

  predicate Space(c: char) {
    c in " \t\n\r"
  }

  /** `strings.TrimSpace`, for ASCII spaces. */
  function TrimSpace(s: string): string
    decreases |s|
  {
    if s == "" then ""
    else if Space(s[0]) then TrimSpace(s[1..])
    else if Space(s[|s| - 1]) then TrimSpace(s[..|s| - 1])
    else s
  }
}
