/** The parts of Python's `str` that the response checks rely on:
    `strip()`, `split()`, `splitlines()`, `lower()`, `in`, `replace()` and
    `"\n".join(...)`, written out on `seq<char>`. */
module PyStr {

  /** `str.isspace()` for one character (Python's Unicode whitespace set). */
  predicate IsSpace(c: char) {
    || c == ' '
    || ('\t' <= c <= '\r')
    || ('\U{1C}' <= c <= '\U{1F}')
    || c == '\U{85}' || c == '\U{A0}' || c == '\U{1680}'
    || ('\U{2000}' <= c <= '\U{200A}')
    || c == '\U{2028}' || c == '\U{2029}' || c == '\U{202F}'
    || c == '\U{205F}' || c == '\U{3000}'
  }

  /** The line boundaries of `str.splitlines()` (`\r\n` counts as one). */
  predicate IsLineBreak(c: char) {
    || c == '\n' || c == '\r' || c == '\U{0B}' || c == '\U{0C}'
    || c == '\U{1C}' || c == '\U{1D}' || c == '\U{1E}'
    || c == '\U{85}' || c == '\U{2028}' || c == '\U{2029}'
  }

  predicate AllSpace(s: string) {
    forall i :: 0 <= i < |s| ==> IsSpace(s[i])
  }

  predicate NoSpace(s: string) {
    forall i :: 0 <= i < |s| ==> !IsSpace(s[i])
  }

  /** A string with no whitespace at either end. */
  predicate IsStripped(s: string) {
    s == [] || (!IsSpace(s[0]) && !IsSpace(s[|s| - 1]))
  }

  /** Number of whitespace characters at the head of `s`. */
  function LeadingSpace(s: string): (n: nat)
    ensures n <= |s| && AllSpace(s[..n]) && (n < |s| ==> !IsSpace(s[n]))
  {
    if s != [] && IsSpace(s[0]) then
      var n := LeadingSpace(s[1..]);
      assert s[..1 + n] == [s[0]] + s[1..][..n];
      1 + n
    else 0
  }

  /** Length of `s` once the whitespace at its tail is dropped. */
  function TrailingStart(s: string): (n: nat)
    ensures n <= |s| && AllSpace(s[n..]) && (n > 0 ==> !IsSpace(s[n - 1]))
  {
    if s != [] && IsSpace(s[|s| - 1]) then
      var n := TrailingStart(s[..|s| - 1]);
      assert s[n..] == s[..|s| - 1][n..] + [s[|s| - 1]];
      n
    else |s|
  }

  /** `s.strip()`: whitespace dropped at both ends. */
  function Strip(s: string): (r: string)
    ensures |r| <= |s| && IsStripped(r)
  {
    var l := s[LeadingSpace(s)..];
    l[..TrailingStart(l)]
  }

  /** What `strip` keeps is one slice of `s`, and all it drops is whitespace. */
  lemma {:induction false} StripIsSlice(s: string)
    ensures var r := Strip(s); var i := LeadingSpace(s);
      i + |r| <= |s| && r == s[i..i + |r|] && AllSpace(s[..i]) && AllSpace(s[i + |r|..])
  {
    var i := LeadingSpace(s);
    TrimmedSlice(s, i, TrailingStart(s[i..]));
  }

  /** Cutting `s[i..]` at `t` cuts `s` at `i + t`. */
  lemma {:induction false} TrimmedSlice(s: string, i: nat, t: nat)
    requires i + t <= |s| && AllSpace(s[i..][t..])
    ensures s[i..][..t] == s[i..i + t] && AllSpace(s[i + t..])
  {
    assert s[i + t..] == s[i..][t..];
  }

  /** Number of non-whitespace characters at the head of `s`. */
  function TokenLength(s: string): (n: nat)
    ensures n <= |s| && NoSpace(s[..n]) && (n < |s| ==> IsSpace(s[n]))
  {
    if s == [] || IsSpace(s[0]) then 0
    else
      var n := TokenLength(s[1..]);
      assert s[..1 + n] == [s[0]] + s[1..][..n];
      1 + n
  }

  /** `s.split()` with no separator: the maximal runs of non-whitespace. */
  function Split(s: string): (words: seq<string>)
    ensures forall k :: 0 <= k < |words| ==> words[k] != [] && NoSpace(words[k])
    decreases |s|
  {
    if s == [] then []
    else if IsSpace(s[0]) then Split(s[1..])
    else
      var n := TokenLength(s);
      [s[..n]] + Split(s[n..])
  }

  /** Number of characters of `s` before its first line boundary. */
  function LineLength(s: string): (n: nat)
    ensures n <= |s| && (n < |s| ==> IsLineBreak(s[n]))
  {
    if s == [] || IsLineBreak(s[0]) then 0 else 1 + LineLength(s[1..])
  }

  /** `s.splitlines()`: the lines without their boundaries, and no empty
      last line after a final boundary. */
  function SplitLines(s: string): (lines: seq<string>)
    ensures |lines| == 0 <==> |s| == 0
    decreases |s|
  {
    if s == [] then []
    else
      var n := LineLength(s);
      if n == |s| then [s]
      else
        [s[..n]] + SplitLines(s[n + BreakWidth(s, n)..])
  }

  /** Width of the line boundary at `n`: two for `\r\n`, else one. */
  function BreakWidth(s: string, n: nat): (b: nat)
    requires n < |s|
    ensures 1 <= b <= |s| - n
  {
    if s[n] == '\r' && n + 1 < |s| && s[n + 1] == '\n' then 2 else 1
  }

  /** `sep.join(parts)`. */
  function Join(sep: string, parts: seq<string>): string
  {
    if |parts| == 0 then ""
    else if |parts| == 1 then parts[0]
    else parts[0] + sep + Join(sep, parts[1..])
  }

  /** `str.lower()` on ASCII letters. */
  function LowerChar(c: char): char {
    if 'A' <= c <= 'Z' then (c as int + 32) as char else c
  }

  function Lower(s: string): (r: string)
    ensures |r| == |s| && forall i :: 0 <= i < |s| ==> r[i] == LowerChar(s[i])
  {
    seq(|s|, i requires 0 <= i < |s| => LowerChar(s[i]))
  }

  predicate StartsWith(s: string, prefix: string) {
    |prefix| <= |s| && s[..|prefix|] == prefix
  }

  /** `pat in s`. */
  predicate Contains(s: string, pat: string)
    decreases |s|
  {
    StartsWith(s, pat) || (s != [] && Contains(s[1..], pat))
  }

  /** `s.replace(pat, rep)`: every non-overlapping occurrence, left to right. */
  function Replace(s: string, pat: string, rep: string): string
    requires pat != []
    decreases |s|
  {
    if s == [] then []
    else if StartsWith(s, pat) then rep + Replace(s[|pat|..], pat, rep)
    else [s[0]] + Replace(s[1..], pat, rep)
  }

  // Facts about the helpers above, used by the response checks.

  lemma {:induction false} StripOfStripped(s: string)
    requires IsStripped(s)
    ensures Strip(s) == s
  {
    assert LeadingSpace(s) == 0 && s[0..] == s;
  }

  /** Whitespace in front of a string that does not start with whitespace
      is exactly what `lstrip` counts. */
  lemma {:induction false} LeadingSpaceOfPrefix(p: string, s: string)
    requires AllSpace(p) && (s == [] || !IsSpace(s[0]))
    ensures LeadingSpace(p + s) == |p|
  {
    if p == [] {
      assert p + s == s;
    } else {
      assert (p + s)[1..] == p[1..] + s;
      LeadingSpaceOfPrefix(p[1..], s);
    }
  }

  /** Leading whitespace in front of an already stripped string is all that `strip` removes. */
  lemma {:induction false} StripSpacePrefix(p: string, s: string)
    requires AllSpace(p) && IsStripped(s)
    ensures Strip(p + s) == s
  {
    LeadingSpaceOfPrefix(p, s);
    assert (p + s)[|p|..] == s;
    StripOfStripped(s);
  }

  lemma {:induction false} SplitOfWord(s: string)
    requires s != [] && NoSpace(s)
    ensures Split(s) == [s]
  {
    var n := TokenLength(s);
    assert !IsSpace(s[0]);
    assert n == |s|;
    assert s[..n] == s && s[n..] == [];
    assert Split(s) == [s[..n]] + Split(s[n..]);
  }

  lemma {:induction false} SplitHasWord(s: string, j: nat)
    requires j < |s| && !IsSpace(s[j])
    ensures |Split(s)| >= 1
    decreases |s|
  {
    if IsSpace(s[0]) {
      SplitHasWord(s[1..], j - 1);
    }
  }

  /** For a stripped string, `len(s.split()) == 1` holds exactly when `s` is
      one non-empty run of non-whitespace. */
  lemma {:induction false} SingleWord(s: string)
    requires IsStripped(s)
    ensures |Split(s)| == 1 <==> s != [] && NoSpace(s)
  {
    if s != [] && NoSpace(s) {
      SplitOfWord(s);
    } else if s != [] {
      var j :| 0 <= j < |s| && IsSpace(s[j]);
      var n := TokenLength(s);
      assert n >= 1 && n <= j;
      SplitHasWord(s[n..], |s| - 1 - n);
      assert |Split(s)| == 1 + |Split(s[n..])|;
    }
  }

  /** `"\n".join(s.splitlines())` gives `s` back when `\n` is the only line
      boundary in `s` and `s` does not end with one. */
  lemma {:induction false} JoinSplitLines(s: string)
    requires OnlyNewlineBreaks(s)
    requires s == [] || s[|s| - 1] != '\n'
    ensures Join("\n", SplitLines(s)) == s
    decreases |s|
  {
    if s != [] {
      var n := LineLength(s);
      if n < |s| {
        assert s[n] == '\n';
        SuffixBreaks(s, n + 1);
        JoinSplitLines(s[n + 1..]);
        JoinAtNewline(s, n);
      }
    }
  }

  /** The step of `JoinSplitLines`: a first line ended by `\n`, in front of
      a rest that joining its lines gives back. */
  lemma {:induction false} JoinAtNewline(s: string, n: nat)
    requires n == LineLength(s) && n + 1 < |s| && s[n] == '\n'
    requires Join("\n", SplitLines(s[n + 1..])) == s[n + 1..]
    ensures Join("\n", SplitLines(s)) == s
  {
    var rest := s[n + 1..];
    SplitLinesAtNewline(s, n);
    JoinCons("\n", s[..n], SplitLines(rest));
    assert s[..n] + "\n" + rest == s;
  }

  /** `\n` is the only line boundary in `s`. */
  predicate OnlyNewlineBreaks(s: string) {
    forall i :: 0 <= i < |s| && IsLineBreak(s[i]) ==> s[i] == '\n'
  }

  lemma {:induction false} SuffixBreaks(s: string, k: nat)
    requires k <= |s| && OnlyNewlineBreaks(s)
    ensures OnlyNewlineBreaks(s[k..])
  {
    forall i | 0 <= i < |s| - k && IsLineBreak(s[k..][i]) ensures s[k..][i] == '\n' {
      assert s[k..][i] == s[k + i];
    }
  }

  lemma {:induction false} JoinCons(sep: string, first: string, rest: seq<string>)
    requires rest != []
    ensures Join(sep, [first] + rest) == first + sep + Join(sep, rest)
  {
    assert ([first] + rest)[1..] == rest;
  }

  lemma {:induction false} SplitLinesAtNewline(s: string, n: nat)
    requires n == LineLength(s) && n < |s| && s[n] == '\n'
    ensures SplitLines(s) == [s[..n]] + SplitLines(s[n + 1..])
  {
    assert BreakWidth(s, n) == 1;
  }

  /** No line boundary among the first `k` characters puts the first
      boundary at `k` or later. */
  lemma {:induction false} LineLengthAtLeast(s: string, k: nat)
    requires k <= |s| && forall i :: 0 <= i < k ==> !IsLineBreak(s[i])
    ensures LineLength(s) >= k
  {
    if k > 0 {
      assert !IsLineBreak(s[0]);
      forall i | 0 <= i < k - 1 ensures !IsLineBreak(s[1..][i]) {
        assert s[1..][i] == s[i + 1];
      }
      LineLengthAtLeast(s[1..], k - 1);
    }
  }

  /** A line boundary at `k` puts the first boundary at `k` or earlier. */
  lemma {:induction false} LineLengthAtMost(s: string, k: nat)
    requires k < |s| && IsLineBreak(s[k])
    ensures LineLength(s) <= k
  {
    if !IsLineBreak(s[0]) {
      assert s[1..][k - 1] == s[k];
      LineLengthAtMost(s[1..], k - 1);
    }
  }

  lemma {:induction false} SplitLinesOfHead(line: string, rest: string)
    requires forall i :: 0 <= i < |line| ==> !IsLineBreak(line[i])
    ensures SplitLines(line + "\n" + rest) == [line] + SplitLines(rest)
  {
    var s := line + "\n" + rest;
    var n := LineLength(s);
    assert s[|line|] == '\n';
    forall i | 0 <= i < |line| ensures !IsLineBreak(s[i]) {
      assert s[i] == line[i];
    }
    LineLengthAtLeast(s, |line|);
    LineLengthAtMost(s, |line|);
    assert s[..n] == line && s[n + 1..] == rest;
  }
}
