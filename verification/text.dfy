/**
 The few pieces of Python string behaviour the prompt builder relies on:
 truthiness of an optional string, `str.isspace` / `str.strip()`, and
 `"\n".join`, together with `str.split("\n")` as the inverse of the join.
 */
module Text {
  import opened Wrappers

  const Newline: char := '\n'

  /** Python truthiness of a value that is either `None` or a string. */
  predicate Truthy(s: Option<string>) {
    s.Some? && s.value != ""
  }

  /** Python's `str.isspace` on one character (the Unicode whitespace set). */
  predicate IsSpace(c: char) {
    || ('\U{9}' <= c <= '\U{D}')
    || ('\U{1C}' <= c <= '\U{20}')
    || c == '\U{85}' || c == '\U{A0}' || c == '\U{1680}'
    || ('\U{2000}' <= c <= '\U{200A}')
    || c == '\U{2028}' || c == '\U{2029}' || c == '\U{202F}'
    || c == '\U{205F}' || c == '\U{3000}'
  }

  predicate AllSpace(s: string) {
    forall i :: 0 <= i < |s| ==> IsSpace(s[i])
  }

  /** Number of whitespace characters at the start of `s`. */
  function LeadingSpaces(s: string): (n: nat)
    ensures n <= |s|
    ensures AllSpace(s[..n])
    ensures n < |s| ==> !IsSpace(s[n])
  {
    if |s| > 0 && IsSpace(s[0]) then 1 + LeadingSpaces(s[1..]) else 0
  }

  /** Number of whitespace characters at the end of `s`. */
  function TrailingSpaces(s: string): (n: nat)
    ensures n <= |s|
    ensures AllSpace(s[|s| - n..])
    ensures n < |s| ==> !IsSpace(s[|s| - n - 1])
  {
    if |s| > 0 && IsSpace(s[|s| - 1]) then 1 + TrailingSpaces(s[..|s| - 1]) else 0
  }

  /**
   Python's `str.strip()` with no argument: the longest slice of `s` that
   neither starts nor ends with whitespace, obtained by removing whitespace
   only. It is empty exactly when `s` is all whitespace.
   */
  function Strip(s: string): (r: string)
    ensures exists i, j :: 0 <= i <= j <= |s| && r == s[i..j] && AllSpace(s[..i]) && AllSpace(s[j..])
    ensures r != [] ==> !IsSpace(r[0]) && !IsSpace(r[|r| - 1])
    ensures r == [] <==> AllSpace(s)
  {
    var i := LeadingSpaces(s);
    var t := s[i..];
    var j := i + |t| - TrailingSpaces(t);
    assert s[i..j] == t[..|t| - TrailingSpaces(t)];
    assert s[j..] == t[|t| - TrailingSpaces(t)..];
    if i == |s| then
      assert AllSpace(s) by { assert s[..i] == s; }
      s[i..j]
    else
      assert !AllSpace(s);
      s[i..j]
  }

  /**
   Python's `"\n".join(lines)`: the lines in order with one newline between
   neighbours. `Split` is its inverse (`JoinSplit`, `SplitJoin`).
   */
  function Join(lines: seq<string>): (r: string)
    ensures |lines| == 0 ==> r == ""
  {
    if |lines| == 0 then ""
    else if |lines| == 1 then lines[0]
    else lines[0] + [Newline] + Join(lines[1..])
  }

  /** A join starts with its first line, ends with its last, and puts a newline right after the first. */
  lemma {:induction false} JoinShape(lines: seq<string>)
    requires |lines| >= 1
    ensures lines[0] <= Join(lines)
    ensures EndsWith(Join(lines), lines[|lines| - 1])
    ensures |lines| >= 2 ==> |lines[0]| < |Join(lines)| && Join(lines)[|lines[0]|] == Newline
  {
    if |lines| >= 2 {
      var rest := Join(lines[1..]);
      var whole := lines[0] + [Newline] + rest;
      var last := lines[|lines| - 1];
      JoinShape(lines[1..]);
      assert whole[|whole| - |rest|..] == rest;
      assert whole[|whole| - |last|..] == rest[|rest| - |last|..];
    }
  }

  /** Index of the first `c` in `s`, or `|s|` when `s` has none. */
  function IndexOf(s: string, c: char): (i: nat)
    ensures i <= |s|
    ensures c !in s[..i]
    ensures i < |s| ==> s[i] == c
  {
    if |s| == 0 then 0
    else if s[0] == c then 0
    else
      var k := 1 + IndexOf(s[1..], c);
      assert s[..k] == [s[0]] + s[1..][..k - 1];
      k
  }

  /** Python's `s.split("\n")`: never empty, and no piece holds a newline. */
  function Split(s: string): (r: seq<string>)
    ensures |r| >= 1
    ensures forall k :: 0 <= k < |r| ==> Newline !in r[k]
    decreases |s|
  {
    var i := IndexOf(s, Newline);
    if i == |s| then
      assert s[..i] == s;
      [s]
    else [s[..i]] + Split(s[i + 1..])
  }

  /** Joining the pieces of a split gives back the original text. */
  lemma {:induction false} JoinSplit(s: string)
    ensures Join(Split(s)) == s
    decreases |s|
  {
    var i := IndexOf(s, Newline);
    if i < |s| {
      var rest := Split(s[i + 1..]);
      assert Split(s) == [s[..i]] + rest;
      JoinSplit(s[i + 1..]);
      JoinCons(s[..i], rest);
      Reassemble(s, i);
    }
  }

  lemma JoinCons(line: string, rest: seq<string>)
    requires |rest| >= 1
    ensures Join([line] + rest) == line + [Newline] + Join(rest)
  {
    assert ([line] + rest)[1..] == rest;
  }

  /** A text is the part before a position, the character there, and the part after. */
  lemma Reassemble(s: string, i: nat)
    requires i < |s| && s[i] == Newline
    ensures s[..i] + [Newline] + s[i + 1..] == s
  {
  }

  predicate SingleLine(s: string) {
    Newline !in s
  }

  /** Splitting a join of single-line strings gives back the lines. */
  lemma {:induction false} SplitJoin(lines: seq<string>)
    requires |lines| >= 1
    requires forall k :: 0 <= k < |lines| ==> SingleLine(lines[k])
    ensures Split(Join(lines)) == lines
  {
    if |lines| == 1 {
      SplitSingle(lines[0]);
    } else {
      var rest := lines[1..];
      forall k | 0 <= k < |rest|
        ensures SingleLine(rest[k])
      {
        assert rest[k] == lines[k + 1];
      }
      SplitJoin(rest);
      SplitJoinStep(lines[0], rest);
      assert lines == [lines[0]] + rest;
    }
  }

  /** One more single line in front of a run that splits back into itself. */
  lemma SplitJoinStep(line: string, rest: seq<string>)
    requires SingleLine(line) && |rest| >= 1 && Split(Join(rest)) == rest
    ensures Split(Join([line] + rest)) == [line] + rest
  {
    JoinCons(line, rest);
    SplitAfterLine(line, Join(rest));
  }

  /** A text without a newline splits into itself. */
  lemma SplitSingle(s: string)
    requires SingleLine(s)
    ensures Split(s) == [s]
  {
    FirstIndex(s, Newline, |s|);
    assert s[..|s|] == s;
  }

  /** Splitting a line, a newline and a rest gives the line, then the pieces of the rest. */
  lemma SplitAfterLine(line: string, rest: string)
    requires SingleLine(line)
    ensures Split(line + [Newline] + rest) == [line] + Split(rest)
  {
    var s := line + [Newline] + rest;
    assert s[..|line|] == line;
    FirstIndex(s, Newline, |line|);
    assert s[|line| + 1..] == rest;
  }

  /** `IndexOf` finds the first occurrence, or the end when there is none. */
  lemma FirstIndex(s: string, c: char, j: nat)
    requires j <= |s| && c !in s[..j] && (j < |s| ==> s[j] == c)
    ensures IndexOf(s, c) == j
  {
  }

  predicate AllSingleLine(lines: seq<string>) {
    forall k :: 0 <= k < |lines| ==> SingleLine(lines[k])
  }

  lemma SingleLineConcat(a: string, b: string)
    requires SingleLine(a) && SingleLine(b)
    ensures SingleLine(a + b)
  {
  }

  lemma AllSingleLineConcat(a: seq<string>, b: seq<string>)
    requires AllSingleLine(a) && AllSingleLine(b)
    ensures AllSingleLine(a + b)
  {
    forall k | 0 <= k < |a + b|
      ensures SingleLine((a + b)[k])
    {
      if k >= |a| { assert (a + b)[k] == b[k - |a|]; }
    }
  }

  /** Joining two non-empty runs of lines puts one newline between them. */
  lemma {:induction false} JoinAppend(a: seq<string>, b: seq<string>)
    requires |a| >= 1 && |b| >= 1
    ensures Join(a + b) == Join(a) + [Newline] + Join(b)
    decreases |a|
  {
    if |a| == 1 {
      assert (a + b)[1..] == b;
    } else {
      assert (a + b)[1..] == a[1..] + b;
      JoinAppend(a[1..], b);
    }
  }

  /** A run of lines joined between two non-empty neighbours. */
  lemma JoinAround(before: seq<string>, middle: seq<string>, after: seq<string>)
    requires |before| >= 1 && |middle| >= 1 && |after| >= 1
    ensures Join(before + middle + after) == Join(before) + [Newline] + Join(middle) + [Newline] + Join(after)
  {
    JoinAppend(before, middle);
    JoinAppend(before + middle, after);
  }

  /** Regrouping a five-part concatenation around its middle three parts. */
  lemma RegroupMiddle<T>(a: seq<T>, b: seq<T>, c: seq<T>, d: seq<T>, e: seq<T>)
    ensures a + b + c + d + e == a + (b + c + d) + e
    ensures a + (b + c + d) + e == (a + b) + c + (d + e)
  {
  }

  /** Regrouping a five-part concatenation into head, middle pair and tail. */
  lemma RegroupPair<T>(a: seq<T>, b: seq<T>, c: seq<T>, d: seq<T>, e: seq<T>)
    ensures a + (b + c + d) + e == (a + b) + (c + d) + e
  {
  }

  lemma EndsWithConcat(a: string, b: string, c: string)
    ensures EndsWith(a + b + c, b + c)
  {
    assert a + b + c == a + (b + c);
    assert (a + (b + c))[|a| ..] == b + c;
  }

  /** `x` occurs in `s` as a contiguous piece. */
  predicate IsInfix(x: string, s: string) {
    exists i, j :: 0 <= i <= j <= |s| && s[i..j] == x
  }

  lemma InfixOfConcat(a: string, x: string, b: string)
    ensures IsInfix(x, a + x + b)
  {
    assert (a + x + b)[|a|..|a| + |x|] == x;
  }

  lemma PrefixIsInfix(x: string, s: string)
    requires x <= s
    ensures IsInfix(x, s)
  {
    assert s[0..|x|] == x;
  }

  /** A piece of a piece of `s` is a piece of `s`. */
  lemma InfixTransitive(x: string, y: string, z: string)
    requires IsInfix(x, y) && IsInfix(y, z)
    ensures IsInfix(x, z)
  {
    var i, j :| 0 <= i <= j <= |y| && y[i..j] == x;
    var k, l :| 0 <= k <= l <= |z| && z[k..l] == y;
    SliceOfSlice(z, k, l, i, j);
  }

  lemma SliceOfSlice(z: string, k: int, l: int, i: int, j: int)
    requires 0 <= k <= l <= |z| && 0 <= i <= j <= l - k
    ensures z[k..l][i..j] == z[k + i..k + j]
  {
    forall t | 0 <= t < j - i
      ensures z[k..l][i..j][t] == z[k + i..k + j][t]
    {
    }
  }

  predicate EndsWith(s: string, suffix: string) {
    |suffix| <= |s| && s[|s| - |suffix|..] == suffix
  }
}
