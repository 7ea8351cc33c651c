/**
 * The Python `str` operations the quiz engine and the outline parser rely on,
 * with Python's own edge cases: `strip()` removes exactly the characters for
 * which `str.isspace()` holds, `find` answers -1 when absent, `"" in s` holds,
 * slicing clamps negative bounds, and `splitlines()` breaks on every Unicode
 * line boundary and drops a trailing empty line.
 */
module PyStr {

  /** `c.isspace()` in Python 3; the regex class `\s` on str patterns matches the same set. */
  predicate IsSpace(c: char) {
    c == ' ' || ('\t' <= c <= '\r') || ('\U{1c}' <= c <= '\U{1f}')
    || c == '\U{85}' || c == '\U{a0}' || c == '\U{1680}'
    || ('\U{2000}' <= c <= '\U{200a}') || c == '\U{2028}' || c == '\U{2029}'
    || c == '\U{202f}' || c == '\U{205f}' || c == '\U{3000}'
  }

  /** `s.lstrip()` */
  function LStrip(s: string): (r: string)
    ensures |r| <= |s|
    ensures r != [] ==> !IsSpace(r[0])
    ensures forall i :: 0 <= i < |s| - |r| ==> IsSpace(s[i])
  {
    if s != [] && IsSpace(s[0]) then LStrip(s[1..]) else s
  }

  /** `s.rstrip()` */
  function RStrip(s: string): (r: string)
    ensures |r| <= |s|
    ensures r != [] ==> !IsSpace(r[|r| - 1])
    ensures forall i :: |r| <= i < |s| ==> IsSpace(s[i])
  {
    if s != [] && IsSpace(s[|s| - 1]) then RStrip(s[..|s| - 1]) else s
  }

  /** What `lstrip` leaves is a suffix of the string. */
  lemma {:induction false} LStripIsSuffix(s: string)
    ensures LStrip(s) == s[|s| - |LStrip(s)|..]
  {
    if s != [] && IsSpace(s[0]) {
      LStripIsSuffix(s[1..]);
    }
  }

  /** What `rstrip` leaves is a prefix of the string. */
  lemma {:induction false} RStripIsPrefix(s: string)
    ensures RStrip(s) == s[..|RStrip(s)|]
  {
    if s != [] && IsSpace(s[|s| - 1]) {
      RStripIsPrefix(s[..|s| - 1]);
    }
  }

  /** `s.strip()`: the longest slice of `s` that neither starts nor ends with whitespace. */
  function Strip(s: string): (r: string)
    ensures |r| <= |s|
    ensures r != [] ==> !IsSpace(r[0]) && !IsSpace(r[|r| - 1])
    ensures r == [] <==> forall i :: 0 <= i < |s| ==> IsSpace(s[i])
  {
    LStripIsSuffix(s);
    RStripIsPrefix(LStrip(s));
    RStrip(LStrip(s))
  }

  /** Stripping a string that has no surrounding whitespace leaves it as it is. */
  lemma StripUnchanged(s: string)
    requires s != [] ==> !IsSpace(s[0]) && !IsSpace(s[|s| - 1])
    ensures Strip(s) == s
  {
  }

  /**
   * `strip` cuts out the text between the leading and the trailing whitespace:
   * the result is the slice of `s` at `|s| - |LStrip(s)|`, and only whitespace
   * lies outside it.
   */
  lemma StripIsSlice(s: string)
    ensures var a, r := |s| - |LStrip(s)|, Strip(s);
      a + |r| <= |s| && r == s[a..a + |r|]
      && (forall i :: 0 <= i < a ==> IsSpace(s[i]))
      && (forall i :: a + |r| <= i < |s| ==> IsSpace(s[i]))
  {
    StripParts(s);
  }

  /** `Strip` in terms of the slices `lstrip` and `rstrip` take. */
  lemma StripParts(s: string)
    ensures var l := LStrip(s); var r := RStrip(l);
      Strip(s) == r && r == s[|s| - |l|..|s| - |l| + |r|]
      && forall i :: |s| - |l| + |r| <= i < |s| ==> IsSpace(s[i])
  {
    var l := LStrip(s);
    LStripIsSuffix(s);
    RStripIsPrefix(l);
    SuffixOfSuffix(s, |s| - |l|, l, RStrip(l));
  }

  /**
   * A prefix `r` of the suffix `l == s[a..]` is the slice of `s` at `a`, and
   * whitespace after `r` in `l` is whitespace after it in `s`.
   */
  lemma SuffixOfSuffix(s: string, a: nat, l: string, r: string)
    requires a <= |s| && l == s[a..] && |r| <= |l| && r == l[..|r|]
    requires forall k :: |r| <= k < |l| ==> IsSpace(l[k])
    ensures r == s[a..a + |r|]
    ensures forall i :: a + |r| <= i < |s| ==> IsSpace(s[i])
  {
    forall i | a + |r| <= i < |s|
      ensures IsSpace(s[i])
    {
      assert s[i] == l[i - a];
    }
  }

  /** `s.startswith(p)` */
  predicate StartsWith(s: string, p: string) {
    |p| <= |s| && s[..|p|] == p
  }

  /** `s.endswith(p)` */
  predicate EndsWith(s: string, p: string) {
    |p| <= |s| && s[|s| - |p|..] == p
  }

  /** A prefix test is an occurrence at index 0. */
  lemma StartsWithOccurs(s: string, p: string)
    ensures StartsWith(s, p) <==> OccursAt(s, p, 0)
  {
  }

  /** A suffix test is an occurrence ending at the end. */
  lemma EndsWithOccurs(s: string, p: string)
    ensures EndsWith(s, p) <==> OccursAt(s, p, |s| - |p|)
  {
    if OccursAt(s, p, |s| - |p|) {
      assert s[|s| - |p|..] == s[|s| - |p|..|s| - |p| + |p|];
    }
  }

  /** `sub` occurs in `s` starting at index `k`. */
  predicate OccursAt(s: string, sub: string, k: int) {
    0 <= k && k + |sub| <= |s| && s[k..k + |sub|] == sub
  }

  /** Whether `sub` occurs at `k` depends only on the first `k + |sub|` characters. */
  lemma OccursAtPrefix(s: string, u: string, sub: string, k: int)
    requires |u| <= |s| && u == s[..|u|]
    requires 0 <= k && k + |sub| <= |u|
    ensures OccursAt(s, sub, k) == OccursAt(u, sub, k)
  {
    assert s[k..k + |sub|] == u[k..k + |sub|];
  }

  /** Whether `sub` occurs at `|a| + k` in `a + b` depends only on `b`. */
  lemma OccursAtSuffix(a: string, b: string, sub: string, k: int)
    requires 0 <= k
    ensures OccursAt(a + b, sub, |a| + k) == OccursAt(b, sub, k)
  {
    if k + |sub| <= |b| {
      assert (a + b)[|a| + k..|a| + k + |sub|] == b[k..k + |sub|];
    }
  }

  /** An occurrence in `a` is still one in `a + b`. */
  lemma OccursAtExtended(a: string, b: string, sub: string, k: int)
    requires OccursAt(a, sub, k)
    ensures OccursAt(a + b, sub, k)
  {
    assert (a + b)[k..k + |sub|] == a[k..k + |sub|];
  }

  /** `s.find(sub, start)`: the least index at or after `start` where `sub` occurs, or -1. */
  function Find(s: string, sub: string, start: nat): (r: int)
    requires start <= |s|
    ensures -1 <= r <= |s|
    ensures r >= 0 ==> start <= r && OccursAt(s, sub, r)
    ensures r >= 0 ==> forall k :: start <= k < r ==> !OccursAt(s, sub, k)
    ensures r == -1 ==> forall k :: start <= k ==> !OccursAt(s, sub, k)
    decreases |s| - start
  {
    if OccursAt(s, sub, start) then start
    else if start == |s| then -1
    else Find(s, sub, start + 1)
  }

  /** `find` answers the first occurrence at or after `start`. */
  lemma FindIsFirst(s: string, sub: string, start: nat, k: nat)
    requires start <= k && OccursAt(s, sub, k)
    requires forall j :: start <= j < k ==> !OccursAt(s, sub, j)
    ensures start <= |s| && Find(s, sub, start) == k
  {
  }

  /** `sub in s` */
  function Contains(s: string, sub: string): (b: bool)
    ensures b <==> exists k :: OccursAt(s, sub, k)
  {
    Find(s, sub, 0) >= 0
  }

  /** Python's `"" in s` is always true. */
  lemma EmptyIsContained(s: string)
    ensures Contains(s, "")
  {
    assert OccursAt(s, "", 0);
  }

  /** `s[a:b]` for integer bounds: negative bounds count from the end, and all bounds are clamped. */
  function PySlice(s: string, a: int, b: int): (r: string)
    ensures |r| <= |s|
  {
    var lo := Clamp(a, |s|);
    var hi := Clamp(b, |s|);
    if lo < hi then s[lo..hi] else []
  }

  /** Bounds within the string slice it as a Dafny slice does. */
  lemma PySliceWithin(s: string, a: int, b: int)
    requires 0 <= a <= b <= |s|
    ensures PySlice(s, a, b) == s[a..b]
  {
  }

  /** An end of -1, which `find` answers for a missing fence, drops the last character. */
  lemma PySliceToMinusOne(s: string, a: int)
    requires 0 <= a < |s|
    ensures PySlice(s, a, -1) == s[a..|s| - 1]
  {
  }

  /** Bounds past the end are cut to the end; a start past the end gives "". */
  lemma PySlicePastEnd(s: string, a: int, b: int)
    requires 0 <= a && |s| <= b
    ensures PySlice(s, a, b) == if a < |s| then s[a..] else []
  {
  }

  function Clamp(i: int, n: nat): (r: nat)
    ensures r <= n
  {
    if i < 0 then (if i + n < 0 then 0 else i + n) else if i > n then n else i
  }

  /** ASCII case mapping, as `str.upper()` does on ASCII letters. */
  function UpperChar(c: char): char {
    if 'a' <= c <= 'z' then (c as int - 32) as char else c
  }

  function LowerChar(c: char): char {
    if 'A' <= c <= 'Z' then (c as int + 32) as char else c
  }

  /** `s.upper()` on ASCII letters */
  function Upper(s: string): (r: string)
    ensures |r| == |s| && forall i :: 0 <= i < |s| ==> r[i] == UpperChar(s[i])
  {
    seq(|s|, i requires 0 <= i < |s| => UpperChar(s[i]))
  }

  /** `s.lower()` on ASCII letters */
  function Lower(s: string): (r: string)
    ensures |r| == |s| && forall i :: 0 <= i < |s| ==> r[i] == LowerChar(s[i])
  {
    seq(|s|, i requires 0 <= i < |s| => LowerChar(s[i]))
  }

  /** `s.replace(a, b)` for single characters */
  function ReplaceChar(s: string, a: char, b: char): (r: string)
    ensures |r| == |s|
    ensures forall i :: 0 <= i < |s| ==> r[i] == if s[i] == a then b else s[i]
  {
    seq(|s|, i requires 0 <= i < |s| => if s[i] == a then b else s[i])
  }

  /** `s.replace(pat, "")`: occurrences are removed left to right without overlapping. */
  function RemoveAll(s: string, pat: string): (r: string)
    requires |pat| > 0
    ensures |r| <= |s|
    decreases |s|
  {
    if s == [] then []
    else if StartsWith(s, pat) then RemoveAll(s[|pat|..], pat)
    else [s[0]] + RemoveAll(s[1..], pat)
  }

  /** Text holding no occurrence of the pattern is left unchanged by `RemoveAll`. */
  lemma {:induction false} RemoveAllAbsent(s: string, pat: string)
    requires |pat| > 0 && !Contains(s, pat)
    ensures RemoveAll(s, pat) == s
    decreases |s|
  {
    if s != [] {
      assert !OccursAt(s, pat, 0);
      assert s == [s[0]] + s[1..];
      forall k | OccursAt(s[1..], pat, k)
        ensures false
      {
        OccursAtSuffix([s[0]], s[1..], pat, k);
      }
      RemoveAllAbsent(s[1..], pat);
    }
  }

  /**
   * `RemoveAll` cuts the first occurrence of the pattern: when no occurrence ends
   * before the one right after `a`, everything in `a` is kept and the scan
   * resumes after that occurrence.
   */
  lemma {:induction false} RemoveAllCutsFirst(a: string, pat: string, b: string)
    requires |pat| > 0 && !Contains(a + pat[..|pat| - 1], pat)
    ensures RemoveAll(a + pat + b, pat) == a + RemoveAll(b, pat)
    decreases |a|
  {
    if a == [] {
      assert a + pat + b == pat + b;
      RemoveAllAtPattern(pat, b);
    } else {
      var s, t, r := a + pat + b, a[1..] + pat + b, RemoveAll(b, pat);
      NoPatternAtHead(a, pat, b);
      DropHead(a, pat, b);
      RemoveAllKeepsHead(s, pat);
      assert RemoveAll(s, pat) == [a[0]] + RemoveAll(t, pat);
      RemoveAllCutsFirst(a[1..], pat, b);
      ConsConcat(a, r);
    }
  }

  /** Dropping the first character of a concatenation that starts with `a`. */
  lemma DropHead(a: string, x: string, y: string)
    requires a != []
    ensures (a + x + y)[1..] == a[1..] + x + y && (a + x + y)[0] == a[0]
  {
  }

  /** A concatenation that starts with `a` begins with `a[0]`. */
  lemma ConsConcat(a: string, x: string)
    requires a != []
    ensures a + x == [a[0]] + (a[1..] + x)
  {
  }

  /** An occurrence at the front is cut. */
  lemma RemoveAllAtPattern(pat: string, b: string)
    requires |pat| > 0
    ensures RemoveAll(pat + b, pat) == RemoveAll(b, pat)
  {
    assert (pat + b)[..|pat|] == pat;
    assert (pat + b)[|pat|..] == b;
  }

  /** Without an occurrence at the front, the first character is kept. */
  lemma RemoveAllKeepsHead(s: string, pat: string)
    requires |pat| > 0 && s != [] && !StartsWith(s, pat)
    ensures RemoveAll(s, pat) == [s[0]] + RemoveAll(s[1..], pat)
  {
  }

  /**
   * With `a` non-empty and no occurrence ending before the one after `a`, none
   * is at the front, and the same holds once the first character is dropped.
   */
  lemma NoPatternAtHead(a: string, pat: string, b: string)
    requires |pat| > 0 && a != [] && !Contains(a + pat[..|pat| - 1], pat)
    ensures !StartsWith(a + pat + b, pat)
    ensures !Contains(a[1..] + pat[..|pat| - 1], pat)
  {
    var s, u, v := a + pat + b, a + pat[..|pat| - 1], a[1..] + pat[..|pat| - 1];
    assert u == s[..|u|];
    OccursAtPrefix(s, u, pat, 0);
    assert u == [a[0]] + v;
    forall k | OccursAt(v, pat, k)
      ensures false
    {
      OccursAtSuffix([a[0]], v, pat, k);
    }
  }

  /** `s.strip(c)`: removes the character `c`, and nothing else, from both ends. */
  function StripChar(s: string, c: char): (r: string)
    ensures |r| <= |s|
    ensures r != [] ==> r[0] != c && r[|r| - 1] != c
    decreases |s|
  {
    if s == [] then []
    else if s[0] == c then StripChar(s[1..], c)
    else if s[|s| - 1] == c then StripChar(s[..|s| - 1], c)
    else s
  }

  /**
   * `strip(c)` removes only copies of `c`, and only at the ends: the result is a
   * slice `s[a..a + |r|]` with nothing but `c` outside it.
   */
  lemma {:induction false} StripCharIsSlice(s: string, c: char) returns (a: nat)
    ensures var r := StripChar(s, c);
      a + |r| <= |s| && r == s[a..a + |r|]
      && (forall i :: 0 <= i < a ==> s[i] == c)
      && (forall i :: a + |r| <= i < |s| ==> s[i] == c)
    decreases |s|
  {
    var r := StripChar(s, c);
    if s == [] {
      a := 0;
    } else if s[0] == c {
      var b := StripCharIsSlice(s[1..], c);
      a := b + 1;
      assert s[1..][b..b + |r|] == s[a..a + |r|];
      forall i | a + |r| <= i < |s|
        ensures s[i] == c
      {
        assert s[i] == s[1..][i - 1];
      }
    } else if s[|s| - 1] == c {
      a := StripCharIsSlice(s[..|s| - 1], c);
      assert s[..|s| - 1][a..a + |r|] == s[a..a + |r|];
    } else {
      a := 0;
    }
  }

  /** The line boundaries of `str.splitlines()` ("\r\n" counts as one). */
  predicate IsLineBreak(c: char) {
    c == '\n' || c == '\r' || c == '\U{0b}' || c == '\U{0c}' || ('\U{1c}' <= c <= '\U{1e}')
    || c == '\U{85}' || c == '\U{2028}' || c == '\U{2029}'
  }

  /** The index of the first line boundary at or after `i`, or `|s|`. */
  function FirstBreak(s: string, i: nat): (r: nat)
    requires i <= |s|
    ensures i <= r <= |s|
    ensures r < |s| ==> IsLineBreak(s[r])
    ensures forall k :: i <= k < r ==> !IsLineBreak(s[k])
    decreases |s| - i
  {
    if i == |s| || IsLineBreak(s[i]) then i else FirstBreak(s, i + 1)
  }

  /** The length of the line boundary at `i`: "\r\n" is one boundary of two characters. */
  function BreakLength(s: string, i: nat): nat
    requires i < |s|
  {
    if s[i] == '\r' && i + 1 < |s| && s[i + 1] == '\n' then 2 else 1
  }

  /** The lines of `s[i..]`, each cut at the next line boundary, which is dropped. */
  function SplitLinesFrom(s: string, i: nat): (lines: seq<string>)
    requires i <= |s|
    ensures i < |s| <==> lines != []
    ensures forall j, k :: 0 <= j < |lines| && 0 <= k < |lines[j]| ==> !IsLineBreak(lines[j][k])
    decreases |s| - i
  {
    if i == |s| then []
    else
      var e := FirstBreak(s, i);
      if e == |s| then [s[i..]]
      else [s[i..e]] + SplitLinesFrom(s, e + BreakLength(s, e))
  }

  /** `s.splitlines()` */
  function SplitLines(s: string): (lines: seq<string>)
    ensures s != [] <==> lines != []
    ensures forall j, k :: 0 <= j < |lines| && 0 <= k < |lines[j]| ==> !IsLineBreak(lines[j][k])
  {
    SplitLinesFrom(s, 0)
  }

  /** `line` is the text of `s` from `start` up to a line boundary or the end. */
  predicate LineAt(s: string, line: string, start: nat) {
    start + |line| <= |s| && line == s[start..start + |line|]
    && (start + |line| < |s| ==> IsLineBreak(s[start + |line|]))
  }

  /** After the boundary that ends `line` (at `start`), the text goes on at `next`, or ends there. */
  predicate ResumesAt(s: string, line: string, start: nat, next: nat) {
    var e := start + |line|;
    e == next == |s| || (e < |s| && next == e + BreakLength(s, e))
  }

  /**
   * `lines`, starting at the offsets `starts`, are the segments of `s` from `i` on
   * between consecutive line boundaries: the first starts at `i`, each ends at a
   * boundary or at the end, the next starts right after that boundary, and the
   * text ends at the last line's end or right after its boundary.
   */
  predicate Segments(s: string, i: nat, lines: seq<string>, starts: seq<nat>) {
    && |starts| == |lines|
    && (lines != [] ==> starts[0] == i && ResumesAt(s, lines[|lines| - 1], starts[|lines| - 1], |s|))
    && AllLinesAt(s, lines, starts)
    && AllResume(s, lines, starts)
  }

  predicate AllLinesAt(s: string, lines: seq<string>, starts: seq<nat>)
    requires |starts| == |lines|
  {
    forall j :: 0 <= j < |lines| ==> LineAt(s, lines[j], starts[j])
  }

  predicate AllResume(s: string, lines: seq<string>, starts: seq<nat>)
    requires |starts| == |lines|
  {
    forall j :: 0 <= j < |lines| - 1 ==> ResumesAt(s, lines[j], starts[j], starts[j + 1])
  }

  lemma ConsLinesAt(s: string, line: string, start: nat, tail: seq<string>, rest: seq<nat>)
    requires |rest| == |tail| && LineAt(s, line, start) && AllLinesAt(s, tail, rest)
    ensures AllLinesAt(s, [line] + tail, [start] + rest)
  {
    var lines, starts := [line] + tail, [start] + rest;
    forall j | 0 < j < |lines|
      ensures LineAt(s, lines[j], starts[j])
    {
      assert starts[j] == rest[j - 1] && lines[j] == tail[j - 1];
    }
  }

  lemma ConsResume(s: string, line: string, start: nat, tail: seq<string>, rest: seq<nat>)
    requires |rest| == |tail| && AllResume(s, tail, rest)
    requires tail != [] ==> ResumesAt(s, line, start, rest[0])
    ensures AllResume(s, [line] + tail, [start] + rest)
  {
    var lines, starts := [line] + tail, [start] + rest;
    forall j | 0 < j < |lines| - 1
      ensures ResumesAt(s, lines[j], starts[j], starts[j + 1])
    {
      assert starts[j] == rest[j - 1] && lines[j] == tail[j - 1];
      assert starts[j + 1] == rest[j];
    }
  }

  /** One more line in front: the segment from `i` to the boundary at `e`. */
  lemma SegmentsCons(s: string, i: nat, e: nat, tail: seq<string>, rest: seq<nat>)
    requires i <= e < |s| && IsLineBreak(s[e])
    requires Segments(s, e + BreakLength(s, e), tail, rest)
    requires tail == [] ==> e + BreakLength(s, e) == |s|
    ensures Segments(s, i, [s[i..e]] + tail, [i] + rest)
  {
    assert LineAt(s, s[i..e], i);
    ConsLinesAt(s, s[i..e], i, tail, rest);
    ConsResume(s, s[i..e], i, tail, rest);
    var lines, starts := [s[i..e]] + tail, [i] + rest;
    if tail != [] {
      assert lines[|lines| - 1] == tail[|tail| - 1] && starts[|lines| - 1] == rest[|tail| - 1];
    }
  }

  /** The last line, running from `i` to the end of the text. */
  lemma SegmentsLast(s: string, i: nat)
    requires i < |s|
    ensures Segments(s, i, [s[i..]], [i])
  {
    assert LineAt(s, s[i..], i);
  }

  /** The first line of `s[i..]` and what follows it. */
  lemma SplitLinesFromStep(s: string, i: nat)
    requires i < |s|
    ensures var e := FirstBreak(s, i);
      && (e == |s| ==> SplitLinesFrom(s, i) == [s[i..]])
      && (e < |s| ==> SplitLinesFrom(s, i) == [s[i..e]] + SplitLinesFrom(s, e + BreakLength(s, e)))
  {
  }

  lemma {:induction false} SplitLinesFromSegments(s: string, i: nat) returns (starts: seq<nat>)
    requires i <= |s|
    ensures Segments(s, i, SplitLinesFrom(s, i), starts)
    decreases |s| - i
  {
    if i == |s| {
      starts := [];
    } else {
      var e := FirstBreak(s, i);
      SplitLinesFromStep(s, i);
      if e == |s| {
        starts := [i];
        SegmentsLast(s, i);
      } else {
        var n := e + BreakLength(s, e);
        var rest := SplitLinesFromSegments(s, n);
        SegmentsCons(s, i, e, SplitLinesFrom(s, n), rest);
        starts := [i] + rest;
      }
    }
  }

  /** The lines of `splitlines` are the segments of the text between consecutive line boundaries. */
  lemma SplitLinesSegments(s: string) returns (starts: seq<nat>)
    ensures Segments(s, 0, SplitLines(s), starts)
  {
    starts := SplitLinesFromSegments(s, 0);
  }

  /** `sep.join(xs)` */
  function Join(xs: seq<string>, sep: string): (r: string)
    ensures xs == [] ==> r == []
    ensures |xs| == 1 ==> r == xs[0]
  {
    if xs == [] then []
    else if |xs| == 1 then xs[0]
    else xs[0] + sep + Join(xs[1..], sep)
  }

  /** Joining one more string appends the separator and that string. */
  lemma {:induction false} JoinAppend(xs: seq<string>, x: string, sep: string)
    requires xs != []
    ensures Join(xs + [x], sep) == Join(xs, sep) + sep + x
    decreases |xs|
  {
    if |xs| == 1 {
      assert xs + [x] == [xs[0], x];
      assert [xs[0], x][1..] == [x];
    } else {
      assert (xs + [x])[1..] == xs[1..] + [x];
      JoinAppend(xs[1..], x, sep);
    }
  }
}
