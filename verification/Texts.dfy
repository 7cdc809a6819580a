/** The text comparisons of the delivery code, on ASCII text. */
module Texts {
  predicate IsSpace(c: char) {
    c == ' ' || c == '\t' || c == '\n' || c == '\r'
  }

  function StripLeft(s: string): string {
    if s != "" && IsSpace(s[0]) then StripLeft(s[1..]) else s
  }

  function StripRight(s: string): string {
    if s != "" && IsSpace(s[|s| - 1]) then StripRight(s[..|s| - 1]) else s
  }

  function Strip(s: string): string {
    StripRight(StripLeft(s))
  }

  /** Nothing is left to strip. */
  predicate Trimmed(s: string) {
    s == "" || (!IsSpace(s[0]) && !IsSpace(s[|s| - 1]))
  }

  function LowerChar(c: char): char {
    if 'A' <= c <= 'Z' then (c as int + 32) as char else c
  }

  function UpperChar(c: char): char {
    if 'a' <= c <= 'z' then (c as int - 32) as char else c
  }

  function Upper(s: string): string {
    if s == "" then "" else [UpperChar(s[0])] + Upper(s[1..])
  }

  /** The words of a text in lower case: what is left when white space and case do not count.
      `word` is the word being read. */
  function Words(s: string, word: string := ""): seq<string>
    decreases |s|
  {
    if s == "" then (if word == "" then [] else [word])
    else if IsSpace(s[0]) then (if word == "" then [] else [word]) + Words(s[1..], "")
    else Words(s[1..], word + [LowerChar(s[0])])
  }

  function Before(s: string, mark: char): (i: nat)
    ensures i <= |s|
  {
    if s == "" || s[0] == mark then 0 else 1 + Before(s[1..], mark)
  }

  lemma {:induction false} BeforeIsTheEnd(p: string, mark: char, rest: string)
    requires mark !in p
    ensures Before(p + [mark] + rest, mark) == |p|
  {
    var s := p + [mark] + rest;
    if p == "" {
      assert s[0] == mark;
    } else {
      assert s[0] == p[0] && s[1..] == p[1..] + [mark] + rest;
      BeforeIsTheEnd(p[1..], mark, rest);
    }
  }

  /** What stands before the first mark, and after it, can be told. */
  lemma SplitsAtMark(p: string, x: string, q: string, y: string, mark: char)
    requires mark !in p && mark !in q && p + [mark] + x == q + [mark] + y
    ensures p == q && x == y
  {
    BeforeIsTheEnd(p, mark, x);
    BeforeIsTheEnd(q, mark, y);
    assert (p + [mark] + x)[..|p|] == p && (q + [mark] + y)[..|q|] == q;
    assert (p + [mark] + x)[|p| + 1..] == x && (q + [mark] + y)[|q| + 1..] == y;
  }

  // ---------------------------------------------------------------------------------------------
  // Trimming and case
  // ---------------------------------------------------------------------------------------------

  lemma {:induction false} LeftIsStripped(s: string)
    ensures var r := StripLeft(s); r == "" || !IsSpace(r[0])
  {
    if s != "" && IsSpace(s[0]) {
      LeftIsStripped(s[1..]);
    }
  }

  lemma {:induction false} RightIsStripped(s: string)
    ensures var r := StripRight(s); r <= s && (r == "" || !IsSpace(r[|r| - 1]))
  {
    if s != "" && IsSpace(s[|s| - 1]) {
      RightIsStripped(s[..|s| - 1]);
    }
  }

  lemma StripTrims(s: string)
    ensures Trimmed(Strip(s))
  {
    LeftIsStripped(s);
    RightIsStripped(StripLeft(s));
  }

  lemma {:induction false} UpperAt(s: string)
    ensures |Upper(s)| == |s| && forall i :: 0 <= i < |s| ==> Upper(s)[i] == UpperChar(s[i])
  {
    if s != "" {
      UpperAt(s[1..]);
    }
  }

  predicate NoSmall(s: string) {
    forall i :: 0 <= i < |s| ==> UpperChar(s[i]) == s[i]
  }

  lemma UpperIsKept(s: string)
    ensures Upper(s) == s <==> NoSmall(s)
    ensures NoSmall(Upper(s))
  {
    UpperAt(s);
  }

  lemma UpperStaysTrimmed(s: string)
    requires Trimmed(s)
    ensures Trimmed(Upper(s)) && |Upper(s)| == |s|
  {
    UpperAt(s);
  }

  /** How often a character stands in a text. */
  function Count(s: string, c: char): nat {
    if s == "" then 0 else (if s[0] == c then 1 else 0) + Count(s[1..], c)
  }

  lemma {:induction false} CountOfLast(s: string, c: char)
    requires s != ""
    ensures Count(s, c) == Count(s[..|s| - 1], c) + (if s[|s| - 1] == c then 1 else 0)
  {
    if |s| > 1 {
      CountOfLast(s[1..], c);
      assert s[1..][..|s| - 2] == s[..|s| - 1][1..];
    } else {
      assert s[..0] == "" && s[1..] == "";
    }
  }

  lemma {:induction false} LeftKeepsCount(s: string, c: char)
    requires !IsSpace(c)
    ensures Count(StripLeft(s), c) == Count(s, c)
  {
    if s != "" && IsSpace(s[0]) {
      LeftKeepsCount(s[1..], c);
    }
  }

  lemma {:induction false} RightKeepsCount(s: string, c: char)
    requires !IsSpace(c)
    ensures Count(StripRight(s), c) == Count(s, c)
  {
    if s != "" && IsSpace(s[|s| - 1]) {
      RightKeepsCount(s[..|s| - 1], c);
      CountOfLast(s, c);
    }
  }

  lemma StripKeepsCount(s: string, c: char)
    requires !IsSpace(c)
    ensures Count(Strip(s), c) == Count(s, c)
  {
    LeftKeepsCount(s, c);
    RightKeepsCount(StripLeft(s), c);
  }

  /** Where the same number of marks stands before, what stands before the next mark can be told. */
  lemma {:induction false} SplitsAtCount(p: string, x: string, q: string, y: string, mark: char)
    requires Count(p, mark) == Count(q, mark) && p + [mark] + x == q + [mark] + y
    ensures p == q && x == y
    decreases |p|
  {
    var s, t := p + [mark] + x, q + [mark] + y;
    assert s[0] == (if p == "" then mark else p[0]) && t[0] == (if q == "" then mark else q[0]);
    assert p == "" <==> q == "";
    if p == "" {
      assert s[1..] == x && t[1..] == y;
    } else {
      assert s[1..] == p[1..] + [mark] + x && t[1..] == q[1..] + [mark] + y;
      SplitsAtCount(p[1..], x, q[1..], y, mark);
      assert p == [p[0]] + p[1..] && q == [q[0]] + q[1..];
    }
  }
}
