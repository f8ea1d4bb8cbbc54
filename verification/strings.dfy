/** The few Python string operations the worker relies on: `strip`,
    `rstrip(chars)`, `sep.join`, `split(sep)`, `splitlines` and `str(n)`
    for a natural number. */
module Strings {

  /** The characters for which Python's `str.isspace()` holds; `strip()` and
      `rstrip()` without arguments remove exactly these. */
  const Whitespace: set<char> := {
    '\t', '\n', '\U{000B}', '\U{000C}', '\r', '\U{001C}', '\U{001D}', '\U{001E}', '\U{001F}', ' ',
    '\U{0085}', '\U{00A0}', '\U{1680}', '\U{2000}', '\U{2001}', '\U{2002}', '\U{2003}', '\U{2004}',
    '\U{2005}', '\U{2006}', '\U{2007}', '\U{2008}', '\U{2009}', '\U{200A}', '\U{2028}', '\U{2029}',
    '\U{202F}', '\U{205F}', '\U{3000}'
  }

  /** The line boundaries of `str.splitlines()` (`\r\n` counts as one boundary). */
  const LineBreaks: set<char> := {
    '\n', '\r', '\U{000B}', '\U{000C}', '\U{001C}', '\U{001D}', '\U{001E}', '\U{0085}', '\U{2028}', '\U{2029}'
  }

  lemma {:induction false} LineBreaksAreWhitespace()
    ensures LineBreaks <= Whitespace
  {
  }

  /** `s.rstrip(chars)`: the longest prefix of `s` that does not end in `cs`. */
  function TrimEnd(s: string, cs: set<char>): (r: string)
    ensures r <= s
    ensures r == [] || r[|r| - 1] !in cs
    ensures forall i | |r| <= i < |s| :: s[i] in cs
    decreases |s|
  {
    if s != [] && s[|s| - 1] in cs then TrimEnd(s[..|s| - 1], cs) else s
  }

  /** `s.lstrip(chars)`: the longest suffix of `s` that does not start in `cs`. */
  function TrimStart(s: string, cs: set<char>): (r: string)
    ensures |r| <= |s|
    ensures r == [] || r[0] !in cs
    ensures forall i | 0 <= i < |s| - |r| :: s[i] in cs
    decreases |s|
  {
    if s != [] && s[0] in cs then TrimStart(s[1..], cs) else s
  }

  /** What `TrimStart` keeps is a suffix of its argument. */
  lemma {:induction false} TrimStartSuffix(s: string, cs: set<char>)
    ensures TrimStart(s, cs) == s[|s| - |TrimStart(s, cs)|..]
    decreases |s|
  {
    if s != [] && s[0] in cs {
      TrimStartSuffix(s[1..], cs);
    }
  }

  /** `s.rstrip()` */
  function RStrip(s: string): string {
    TrimEnd(s, Whitespace)
  }

  /** `s.strip()` */
  function Strip(s: string): (r: string)
    ensures r == [] || (r[0] !in Whitespace && r[|r| - 1] !in Whitespace)
    ensures |r| <= |s|
  {
    TrimStartSuffix(TrimEnd(s, Whitespace), Whitespace);
    TrimStart(TrimEnd(s, Whitespace), Whitespace)
  }

  /** Stripping removes characters and adds none. */
  lemma {:induction false} StripKeepsFree(s: string, cs: set<char>)
    requires forall i | 0 <= i < |s| :: s[i] !in cs
    ensures forall i | 0 <= i < |Strip(s)| :: Strip(s)[i] !in cs
  {
    var t := TrimEnd(s, Whitespace);
    var r := Strip(s);
    assert forall i | 0 <= i < |t| :: t[i] == s[i];
    TrimStartSuffix(t, Whitespace);
    assert r == t[|t| - |r|..];
    assert forall i | 0 <= i < |r| :: r[i] == t[|t| - |r| + i];
  }

  /** A string of whitespace only strips to nothing. */
  lemma {:induction false} StripBlank(s: string)
    requires forall i | 0 <= i < |s| :: s[i] in Whitespace
    ensures Strip(s) == ""
  {
    var t := TrimEnd(s, Whitespace);
    assert |t| > 0 ==> t[|t| - 1] == s[|t| - 1];
  }

  /** Stripping leaves nothing exactly when every character is whitespace. */
  lemma {:induction false} StripEmpty(s: string)
    ensures Strip(s) == "" <==> forall i | 0 <= i < |s| :: s[i] in Whitespace
  {
    if forall i | 0 <= i < |s| :: s[i] in Whitespace {
      StripBlank(s);
    } else {
      var j :| 0 <= j < |s| && s[j] !in Whitespace;
      var t := TrimEnd(s, Whitespace);
      assert j < |t|;
      assert t[j] == s[j];
      TrimStartSuffix(t, Whitespace);
    }
  }

  /** A string that neither starts nor ends with whitespace is already stripped. */
  lemma {:induction false} StripTrimmed(s: string)
    requires s == [] || (s[0] !in Whitespace && s[|s| - 1] !in Whitespace)
    ensures Strip(s) == s
  {
  }

  /** `sep.join(parts)` */
  function Join(parts: seq<string>, sep: string): (r: string)
    decreases |parts|
  {
    if |parts| == 0 then ""
    else if |parts| == 1 then parts[0]
    else parts[0] + sep + Join(parts[1..], sep)
  }

  /** `"".join(parts)` */
  function Concat(parts: seq<string>): string {
    Join(parts, "")
  }

  /** Position of the first `c` in `s`, or `|s|` when there is none. */
  function IndexOf(s: string, c: char): (i: nat)
    ensures i <= |s|
    ensures i < |s| ==> s[i] == c
    ensures forall k | 0 <= k < i :: s[k] != c
    decreases |s|
  {
    if s == [] then 0 else if s[0] == c then 0 else 1 + IndexOf(s[1..], c)
  }

  /** `s.split(c)` for a one-character separator: never empty, and no piece holds `c`. */
  function Split(s: string, c: char): (r: seq<string>)
    ensures |r| >= 1
    ensures forall k | 0 <= k < |r| :: c !in r[k]
    decreases |s|
  {
    var i := IndexOf(s, c);
    if i == |s| then [s] else [s[..i]] + Split(s[i + 1..], c)
  }

  /** Joining the pieces of a split with the separator gives the string back. */
  lemma {:induction false} JoinSplit(s: string, c: char)
    ensures Join(Split(s, c), [c]) == s
    decreases |s|
  {
    var i := IndexOf(s, c);
    if i < |s| {
      JoinSplit(s[i + 1..], c);
      assert s == s[..i] + [c] + s[i + 1..];
    }
  }

  /** Splitting a join of pieces free of the separator gives the pieces back. */
  lemma {:induction false} SplitJoin(parts: seq<string>, c: char)
    requires |parts| >= 1
    requires forall k | 0 <= k < |parts| :: c !in parts[k]
    ensures Split(Join(parts, [c]), c) == parts
    decreases |parts|
  {
    var p := parts[0];
    if |parts| == 1 {
      SplitFree(p, c);
    } else {
      var rest := Join(parts[1..], [c]);
      assert Join(parts, [c]) == p + [c] + rest;
      SplitAt(p, c, rest);
      SplitJoin(parts[1..], c);
      assert parts == [p] + parts[1..];
    }
  }

  /** A string without the separator splits into itself. */
  lemma {:induction false} SplitFree(p: string, c: char)
    requires c !in p
    ensures Split(p, c) == [p]
  {
    assert IndexOf(p, c) == |p|;
  }

  /** The first separator ends the first piece. */
  lemma {:induction false} SplitAt(p: string, c: char, rest: string)
    requires c !in p
    ensures Split(p + [c] + rest, c) == [p] + Split(rest, c)
  {
    var s := p + [c] + rest;
    assert s == p + ([c] + rest);
    IndexAfterFree(p, c, [c] + rest);
    assert s[..|p|] == p;
    assert s[|p| + 1..] == rest;
  }

  lemma {:induction false} IndexAfterFree(p: string, c: char, t: string)
    requires c !in p
    requires t != [] && t[0] == c
    ensures IndexOf(p + t, c) == |p|
    decreases |p|
  {
    if p != [] {
      assert (p + t)[1..] == p[1..] + t;
      IndexAfterFree(p[1..], c, t);
    }
  }

  /** Position of the first line boundary in `s`, or `|s|`. */
  function LineEnd(s: string): (i: nat)
    ensures i <= |s|
    ensures i < |s| ==> s[i] in LineBreaks
    ensures forall k | 0 <= k < i :: s[k] !in LineBreaks
    decreases |s|
  {
    if s == [] then 0 else if s[0] in LineBreaks then 0 else 1 + LineEnd(s[1..])
  }

  /** `s.splitlines()`: the lines of `s` without their boundaries; a boundary at
      the very end does not open an empty last line, and `"\r\n"` is one boundary. */
  function SplitLines(s: string): (r: seq<string>)
    ensures forall k, j | 0 <= k < |r| && 0 <= j < |r[k]| :: r[k][j] !in LineBreaks
    ensures s == [] <==> r == []
    decreases |s|
  {
    if s == [] then []
    else
      var i := LineEnd(s);
      if i == |s| then [s]
      else
        var width := if s[i] == '\r' && i + 1 < |s| && s[i + 1] == '\n' then 2 else 1;
        [s[..i]] + SplitLines(s[i + width..])
  }

  /** A non-empty text without line boundaries is a single line. */
  lemma {:induction false} NoLineBreak(s: string)
    requires s != []
    requires forall i | 0 <= i < |s| :: s[i] !in LineBreaks
    ensures SplitLines(s) == [s]
  {
    NoLineEnd(s);
  }

  lemma {:induction false} NoLineEnd(s: string)
    requires forall i | 0 <= i < |s| :: s[i] !in LineBreaks
    ensures LineEnd(s) == |s|
    decreases |s|
  {
    if s != [] {
      NoLineEnd(s[1..]);
    }
  }

  function Digit(d: nat): (c: char)
    requires d < 10
    ensures '0' <= c <= '9'
  {
    "0123456789"[d]
  }

  /** `str(n)` for a natural number: its decimal digits, most significant first. */
  function Decimal(n: nat): (r: string)
    ensures |r| >= 1
    ensures forall k | 0 <= k < |r| :: '0' <= r[k] <= '9'
    ensures n < 10 <==> |r| == 1
    decreases n
  {
    if n < 10 then [Digit(n)] else Decimal(n / 10) + [Digit(n % 10)]
  }

  /** Different numbers print differently. */
  lemma {:induction false} DecimalInjective(a: nat, b: nat)
    requires Decimal(a) == Decimal(b)
    ensures a == b
    decreases a
  {
    if a >= 10 && b >= 10 {
      var da, db := Decimal(a), Decimal(b);
      assert da[..|da| - 1] == Decimal(a / 10);
      assert db[..|db| - 1] == Decimal(b / 10);
      DecimalInjective(a / 10, b / 10);
      assert Digit(a % 10) == Digit(b % 10);
    }
  }
}
