/** The Python `str` operations the doctor's code relies on, over Dafny
    strings (sequences of Unicode code points, as Python's `str` is).

    `splitlines()` and `strip()` follow Python's own character sets.
    `lower()` is approximated by ASCII lower-casing: the only use is a test
    for an ASCII marker phrase, and it misses only the few non-ASCII code
    points whose Unicode lower case contains an ASCII letter (U+0130 and the
    Kelvin sign U+212A). */
module PyStrings {

  /** A Python value passed where the code expects a `str`: a string, or
      some other object, of which the code only ever uses its truthiness and
      its `str()` rendering. */
  datatype PyValue = Str(s: string) | Obj(truthy: bool, text: string)

  /** Python truthiness: `not v` is `!Truthy(v)`. */
  predicate Truthy(v: PyValue) {
    match v
    case Str(s) => s != []
    case Obj(t, _) => t
  }

  /** `str(v)`. */
  function ToStr(v: PyValue): string {
    match v
    case Str(s) => s
    case Obj(_, t) => t
  }

  /** `v and isinstance(v, str)`: a non-empty string. */
  predicate IsNonEmptyStr(v: PyValue) {
    v.Str? && v.s != []
  }

  // ---------------------------------------------------------------------
  // White space and strip()

  /** The characters for which `str.isspace()` holds, which are the ones
      `str.strip()` removes. */
  predicate IsSpace(c: char) {
    ('\t' <= c <= '\r') || ('\U{1C}' <= c <= ' ') || c == '\U{85}' || c == '\U{A0}'
    || c == '\U{1680}' || ('\U{2000}' <= c <= '\U{200A}') || c == '\U{2028}' || c == '\U{2029}'
    || c == '\U{202F}' || c == '\U{205F}' || c == '\U{3000}'
  }

  /** Every character is white space, that is, `not s.strip()`. */
  predicate Blank(s: string) {
    forall i :: 0 <= i < |s| ==> IsSpace(s[i])
  }

  /** The number of white-space characters `s` starts with. */
  function LeadingSpace(s: string): (n: nat)
    ensures n <= |s|
    ensures forall i :: 0 <= i < n ==> IsSpace(s[i])
    ensures n < |s| ==> !IsSpace(s[n])
  {
    if s == [] || !IsSpace(s[0]) then 0 else 1 + LeadingSpace(s[1..])
  }

  /** The number of white-space characters `s` ends with. */
  function TrailingSpace(s: string): (n: nat)
    ensures n <= |s|
    ensures forall i :: |s| - n <= i < |s| ==> IsSpace(s[i])
    ensures n < |s| ==> !IsSpace(s[|s| - n - 1])
  {
    if s == [] || !IsSpace(s[|s| - 1]) then 0 else 1 + TrailingSpace(s[..|s| - 1])
  }

  /** The trailing white space is blank. */
  lemma TrailingBlank(t: string)
    ensures Blank(t[|t| - TrailingSpace(t)..])
  {
    var n := TrailingSpace(t);
    var u := t[|t| - n..];
    forall i | 0 <= i < |u| ensures IsSpace(u[i]) {
      assert u[i] == t[|t| - n + i];
    }
  }

  /** `s.strip()`: `s` without its leading and trailing white space. */
  function Strip(s: string): (r: string)
    ensures r == [] <==> Blank(s)
    ensures r != [] ==> !IsSpace(r[0]) && !IsSpace(r[|r| - 1])
    ensures LeadingSpace(s) + |r| <= |s|
    ensures r == s[LeadingSpace(s)..LeadingSpace(s) + |r|]
    ensures Blank(s[LeadingSpace(s) + |r|..])
  {
    var k := LeadingSpace(s);
    if k == |s| then []
    else
      var n := TrailingSpace(s);
      assert !IsSpace(s[k]);
      assert k < |s| - n;
      TrailingBlank(s);
      s[k..|s| - n]
  }

  // ---------------------------------------------------------------------
  // Substrings: the `in` operator on strings

  /** `sub in s`. */
  predicate Contains(s: string, sub: string)
    decreases |s|
  {
    sub <= s || (s != [] && Contains(s[1..], sub))
  }

  /** `sub` occurs in `s` at index `i`. */
  predicate OccursAt(s: string, sub: string, i: int) {
    0 <= i <= |s| - |sub| && s[i..i + |sub|] == sub
  }

  /** An occurrence at an index makes `sub in s` hold. */
  lemma {:induction false} OccursContains(s: string, sub: string, i: int)
    requires OccursAt(s, sub, i)
    ensures Contains(s, sub)
    decreases i
  {
    if i == 0 {
      assert s[..|sub|] == sub;
    } else {
      assert s[1..][i - 1..i - 1 + |sub|] == s[i..i + |sub|];
      OccursContains(s[1..], sub, i - 1);
    }
  }

  /** `sub in s` gives an occurrence at some index. */
  lemma {:induction false} ContainsOccurs(s: string, sub: string)
    requires Contains(s, sub)
    ensures exists i :: OccursAt(s, sub, i)
    decreases |s|
  {
    if sub <= s {
      assert OccursAt(s, sub, 0);
    } else {
      ContainsOccurs(s[1..], sub);
      var i :| OccursAt(s[1..], sub, i);
      assert s[i + 1..i + 1 + |sub|] == s[1..][i..i + |sub|];
      assert OccursAt(s, sub, i + 1);
    }
  }

  /** `sub in s` holds exactly when `sub` occurs in `s` at some index. */
  lemma {:induction false} ContainsOccurrence(s: string, sub: string)
    ensures Contains(s, sub) <==> exists i :: OccursAt(s, sub, i)
  {
    if Contains(s, sub) {
      ContainsOccurs(s, sub);
    }
    if i :| OccursAt(s, sub, i) {
      OccursContains(s, sub, i);
    }
  }

  /** A string occurs in any string built around it. */
  lemma {:induction false} ContainsInfix(p: string, x: string, q: string)
    ensures Contains(p + x + q, x)
  {
    if p == [] {
      assert p + x + q == x + q;
    } else {
      assert (p + x + q)[1..] == p[1..] + x + q;
      ContainsInfix(p[1..], x, q);
    }
  }

  /** Appending text keeps what occurs. */
  lemma {:induction false} ContainsAppend(a: string, b: string, x: string)
    requires Contains(a, x)
    ensures Contains(a + b, x)
  {
    if !(x <= a) {
      assert (a + b)[1..] == a[1..] + b;
      ContainsAppend(a[1..], b, x);
    }
  }

  /** Prepending text keeps what occurs. */
  lemma {:induction false} ContainsPrepend(a: string, b: string, x: string)
    requires Contains(b, x)
    ensures Contains(a + b, x)
  {
    if a == [] {
      assert a + b == b;
    } else {
      assert (a + b)[1..] == a[1..] + b;
      ContainsPrepend(a[1..], b, x);
    }
  }

  /** A slice of a string occurs in it. */
  lemma {:induction false} ContainsSlice(s: string, i: nat, j: nat)
    requires i <= j <= |s|
    ensures Contains(s, s[i..j])
  {
    ContainsInfix(s[..i], s[i..j], s[j..]);
    assert s[..i] + s[i..j] + s[j..] == s;
  }

  /** What occurs in a suffix occurs in the string. */
  lemma ContainsSuffix(s: string, m: nat, x: string)
    requires m <= |s| && Contains(s[m..], x)
    ensures Contains(s, x)
  {
    ContainsSlice(s, m, |s|);
    assert s[m..|s|] == s[m..];
    ContainsTransitive(s, s[m..], x);
  }

  /** `s.strip()` occurs in `s`. */
  lemma StripContained(s: string)
    ensures Contains(s, Strip(s))
  {
    var k := LeadingSpace(s);
    var r := Strip(s);
    ContainsSlice(s, k, k + |r|);
    assert s[k..k + |r|] == r;
  }

  /** What occurs in a substring occurs in the string. */
  lemma {:induction false} ContainsTransitive(a: string, b: string, c: string)
    requires Contains(a, b) && Contains(b, c)
    ensures Contains(a, c)
  {
    ContainsOccurrence(a, b);
    ContainsOccurrence(b, c);
    var i :| OccursAt(a, b, i);
    var j :| OccursAt(b, c, j);
    forall k | 0 <= k < |c| ensures a[i + j + k] == c[k] {
      assert a[i..i + |b|][j + k] == b[j + k];
      assert b[j..j + |c|][k] == c[k];
    }
    assert a[i + j..i + j + |c|] == c;
    assert OccursAt(a, c, i + j);
    ContainsOccurrence(a, c);
  }

  // ---------------------------------------------------------------------
  // ASCII lower case

  function LowerChar(c: char): char {
    if 'A' <= c <= 'Z' then (c as int + 32) as char else c
  }

  /** `s.lower()`, restricted to the ASCII letters. */
  function AsciiLower(s: string): (r: string)
    ensures |r| == |s|
    ensures forall i :: 0 <= i < |s| ==> r[i] == LowerChar(s[i])
  {
    if s == [] then [] else [LowerChar(s[0])] + AsciiLower(s[1..])
  }

  // ---------------------------------------------------------------------
  // Lines: splitlines() and "\n".join(...)

  /** The line boundaries of `str.splitlines()`: `\n`, `\v`, `\f`, `\r`,
      the separators U+001C..U+001E, U+0085, U+2028 and U+2029. */
  predicate IsLineBreak(c: char) {
    ('\n' <= c <= '\r') || ('\U{1C}' <= c <= '\U{1E}') || c == '\U{85}' || c == '\U{2028}' || c == '\U{2029}'
  }

  predicate NoLineBreak(s: string) {
    forall i :: 0 <= i < |s| ==> !IsLineBreak(s[i])
  }

  /** The index of the first line boundary, or `|s|` if there is none. */
  function LineEnd(s: string): (n: nat)
    ensures n <= |s|
    ensures NoLineBreak(s[..n])
    ensures n < |s| ==> IsLineBreak(s[n])
  {
    if s == [] || IsLineBreak(s[0]) then 0
    else
      var n := 1 + LineEnd(s[1..]);
      assert s[..n] == [s[0]] + s[1..][..n - 1];
      n
  }

  /** The length of the line boundary `s` starts with: `\r\n` is one boundary. */
  function BoundaryLength(s: string): nat {
    if s == [] then 0
    else if s[0] == '\r' && |s| > 1 && s[1] == '\n' then 2
    else 1
  }

  /** `s.splitlines()`: the lines of `s` without their boundaries; a final
      boundary does not start a further, empty line. */
  function SplitLines(s: string): (lines: seq<string>)
    ensures forall k :: 0 <= k < |lines| ==> NoLineBreak(lines[k])
    ensures lines == [] <==> s == []
    decreases |s|
  {
    if s == [] then []
    else
      var n := LineEnd(s);
      [s[..n]] + SplitLines(s[n + BoundaryLength(s[n..])..])
  }

  /** `"\n".join(lines)`. */
  function JoinLines(lines: seq<string>): string {
    if lines == [] then []
    else if |lines| == 1 then lines[0]
    else lines[0] + "\n" + JoinLines(lines[1..])
  }

  /** The first boundary of `s` is at `m` when none comes before it. */
  lemma LineEndAt(s: string, m: nat)
    requires m <= |s| && NoLineBreak(s[..m])
    requires m < |s| ==> IsLineBreak(s[m])
    ensures LineEnd(s) == m
  {
    var n := LineEnd(s);
    forall i | 0 <= i < m ensures !IsLineBreak(s[i]) {
      assert s[..m][i] == s[i];
    }
    forall i | 0 <= i < n ensures !IsLineBreak(s[i]) {
      assert s[..n][i] == s[i];
    }
  }

  /** A line without boundaries is its own first line. */
  lemma LineEndOfLine(s: string)
    requires NoLineBreak(s)
    ensures LineEnd(s) == |s|
  {
  }

  /** `b` is one line boundary of a text that continues with `rest`: `\r\n`,
      or a single boundary character, where a lone `\r` is not followed by
      a `\n` (that pair would be one boundary). */
  predicate OneBoundary(b: string, rest: string) {
    b == "\r\n" || (|b| == 1 && IsLineBreak(b[0]) && (b[0] == '\r' ==> rest == [] || rest[0] != '\n'))
  }

  /** The first boundary of `l + b + rest` is the one after `l`. */
  lemma LineEndBefore(l: string, b: string, rest: string)
    requires NoLineBreak(l) && OneBoundary(b, rest)
    ensures LineEnd(l + b + rest) == |l|
  {
    var s := l + b + rest;
    assert s[..|l|] == l;
    assert s[|l|] == b[0];
    LineEndAt(s, |l|);
  }

  /** A boundary is measured whole. */
  lemma BoundaryLengthOf(b: string, rest: string)
    requires OneBoundary(b, rest)
    ensures BoundaryLength(b + rest) == |b|
  {
    var tail := b + rest;
    if b == "\r\n" {
      assert tail[0] == '\r' && tail[1] == '\n';
    } else {
      assert tail[0] == b[0];
      assert |tail| > 1 ==> tail[1] == rest[0];
    }
  }

  /** The text after the first line and its boundary is a suffix. A proof
      step kept apart so that the lemmas below stay cheap for the solver. */
  lemma NextLineStart(s: string)
    ensures LineEnd(s) + BoundaryLength(s[LineEnd(s)..]) <= |s|
  {
  }

  /** One step of `splitlines()`, as its definition unfolds: the first
      line, then the text after its boundary. A proof step for the lemmas
      below. */
  lemma SplitLinesStep(s: string, n: nat, m: nat)
    requires s != [] && n == LineEnd(s) && m == n + BoundaryLength(s[n..]) && m <= |s|
    ensures SplitLines(s) == [s[..n]] + SplitLines(s[m..])
  {
  }

  /** The step of SplitLinesStep, for a known first line and rest. A proof
      step that only substitutes the pieces; kept apart so that
      SplitLinesCons and SplitLinesSingle stay cheap for the solver. */
  lemma SplitLinesStepOf(s: string, n: nat, m: nat, l: string, rest: string)
    requires n <= |s| && m <= |s| && SplitLines(s) == [s[..n]] + SplitLines(s[m..])
    requires s[..n] == l && s[m..] == rest
    ensures SplitLines(s) == [l] + SplitLines(rest)
  {
  }

  /** A line without boundaries, followed by one boundary, is the first
      line, and the rest splits on its own. */
  lemma SplitLinesCons(l: string, b: string, rest: string)
    requires NoLineBreak(l) && OneBoundary(b, rest)
    ensures SplitLines(l + b + rest) == [l] + SplitLines(rest)
  {
    var s := l + b + rest;
    LineEndBefore(l, b, rest);
    BoundaryLengthOf(b, rest);
    assert s[|l|..] == b + rest;
    assert s[..|l|] == l;
    assert s[|l| + |b|..] == rest;
    SplitLinesStep(s, |l|, |l| + |b|);
    SplitLinesStepOf(s, |l|, |l| + |b|, l, rest);
  }

  /** A non-empty text without boundaries is one line. */
  lemma SplitLinesSingle(l: string)
    requires l != [] && NoLineBreak(l)
    ensures SplitLines(l) == [l]
  {
    LineEndOfLine(l);
    assert l[|l|..] == [];
    SplitLinesStep(l, |l|, |l|);
    SplitLinesStepOf(l, |l|, |l|, l, []);
  }

  /** Splitting the `"\n"`-join of lines without boundaries gives the lines
      back, unless the last of them is empty (then `splitlines` drops it). */
  lemma {:induction false} SplitJoinLines(lines: seq<string>)
    requires forall k :: 0 <= k < |lines| ==> NoLineBreak(lines[k])
    requires lines != [] ==> lines[|lines| - 1] != []
    ensures SplitLines(JoinLines(lines)) == lines
  {
    if |lines| == 1 {
      SplitLinesSingle(lines[0]);
    } else if |lines| > 1 {
      var rest := JoinLines(lines[1..]);
      SplitLinesCons(lines[0], "\n", rest);
      SplitJoinLines(lines[1..]);
      assert lines == [lines[0]] + lines[1..];
    }
  }

  /** Every line occurs in the split text. */
  lemma {:induction false} SplitLinesContained(s: string, k: nat)
    requires k < |SplitLines(s)|
    ensures Contains(s, SplitLines(s)[k])
    decreases |s|
  {
    var n := LineEnd(s);
    var m := n + BoundaryLength(s[n..]);
    NextLineStart(s);
    var rest := s[m..];
    SplitLinesStep(s, n, m);
    var line := SplitLines(s)[k];
    if k == 0 {
      assert line == s[0..n];
      ContainsSlice(s, 0, n);
    } else {
      assert line == SplitLines(rest)[k - 1];
      SplitLinesContained(rest, k - 1);
      ContainsSuffix(s, m, line);
    }
  }
}
