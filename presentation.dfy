/**
 * The outline parser of the slide generator: the Markdown outline is cut into
 * slide blocks at every line that begins with "## Slide", and each block is
 * parsed into a title, at most twenty bullets and the speaker notes.
 */
module Presentation {
  import opened Wrappers
  import opened PyStr

  const Heading: string := "## Slide"
  const NotesMarker: string := "**Speaker Notes:**"

  // ------------------------------------------------------------ split_slides

  /** `(?=^## Slide)` with MULTILINE: a line starts at `p` (`^` matches after '\n' only) and "## Slide" follows. */
  predicate IsHeadingAt(s: string, p: nat) {
    (p == 0 || (p <= |s| && s[p - 1] == '\n')) && OccursAt(s, Heading, p)
  }

  /** The first heading position at or after `i`, or `|s|`. */
  function NextHeading(s: string, i: nat): (r: nat)
    requires i <= |s|
    ensures i <= r <= |s|
    ensures r < |s| ==> IsHeadingAt(s, r)
    ensures forall k :: i <= k < r ==> !IsHeadingAt(s, k)
    decreases |s| - i
  {
    if i == |s| || IsHeadingAt(s, i) then i else NextHeading(s, i + 1)
  }

  /**
   * The parts of `re.split` from `start` on: each part runs up to the next
   * heading. (`re.split` also yields an empty part before a heading at 0, and
   * `[""]` for empty text; both are dropped by the filter that follows.)
   */
  function Pieces(s: string, start: nat): (r: seq<string>)
    requires start <= |s|
    ensures forall i :: 1 <= i < |r| ==> StartsWith(r[i], Heading)
    ensures forall i :: 0 <= i < |r| ==> r[i] != []
    ensures start < |s| && IsHeadingAt(s, start) ==> r != [] && StartsWith(r[0], Heading)
    decreases |s| - start
  {
    if start == |s| then []
    else
      var e := NextHeading(s, start + 1);
      assert e < |s| ==> s[e..][..|Heading|] == s[e..e + |Heading|];
      assert IsHeadingAt(s, start) ==> s[start..e][..|Heading|] == s[start..start + |Heading|];
      [s[start..e]] + Pieces(s, e)
  }

  /**
   * A part holds no second heading: no line inside it, other than its first,
   * begins with "## Slide".
   */
  lemma {:induction false} PiecesHoldOneHeading(s: string, start: nat)
    requires start <= |s|
    ensures var r := Pieces(s, start);
      forall i, k :: 0 <= i < |r| && 0 < k < |r[i]| && r[i][k - 1] == '\n' ==> !OccursAt(r[i], Heading, k)
    decreases |s| - start
  {
    if start < |s| {
      var e := NextHeading(s, start + 1);
      var p := s[start..e];
      forall k | 0 < k < |p| && p[k - 1] == '\n'
        ensures !OccursAt(p, Heading, k)
      {
        if OccursAt(p, Heading, k) {
          assert p[k..k + |Heading|] == s[start + k..start + k + |Heading|];
          assert IsHeadingAt(s, start + k);
          assert false;
        }
      }
      PiecesHoldOneHeading(s, e);
      assert Pieces(s, start) == [p] + Pieces(s, e);
    }
  }

  function Concat(xs: seq<string>): string {
    if xs == [] then [] else xs[0] + Concat(xs[1..])
  }

  /** The parts put back together give the text back. */
  lemma {:induction false} PiecesConcat(s: string, start: nat)
    requires start <= |s|
    ensures Concat(Pieces(s, start)) == s[start..]
    decreases |s| - start
  {
    if start < |s| {
      var e := NextHeading(s, start + 1);
      PiecesConcat(s, e);
      assert s[start..] == s[start..e] + s[e..];
    }
  }

  /** `[p.strip() for p in parts if p.strip().startswith("## Slide")]` */
  function KeepSlides(parts: seq<string>): (r: seq<string>)
    ensures |r| <= |parts|
    ensures forall i :: 0 <= i < |r| ==> StartsWith(r[i], Heading)
  {
    if parts == [] then []
    else
      var t := Strip(parts[0]);
      (if StartsWith(t, Heading) then [t] else []) + KeepSlides(parts[1..])
  }

  /** `split_slides` */
  function SplitSlides(markdown: string): (r: seq<string>)
    ensures forall i :: 0 <= i < |r| ==> StartsWith(r[i], Heading)
  {
    KeepSlides(Pieces(markdown, 0))
  }

  /** A part that begins with a heading survives stripping with its heading intact. */
  lemma HeadingSurvivesStrip(x: string)
    requires StartsWith(x, Heading)
    ensures StartsWith(Strip(x), Heading)
  {
    var l := LStrip(x);
    assert !IsSpace(x[0]);
    assert l == x;
    var r := RStrip(l);
    RStripIsPrefix(l);
    assert !IsSpace(x[|Heading| - 1]);
    assert r[..|Heading|] == x[..|Heading|];
  }

  function StripAll(xs: seq<string>): (r: seq<string>)
    ensures |r| == |xs| && forall i :: 0 <= i < |xs| ==> r[i] == Strip(xs[i])
  {
    if xs == [] then [] else [Strip(xs[0])] + StripAll(xs[1..])
  }

  lemma {:induction false} AllHeadedKept(xs: seq<string>)
    requires forall i :: 0 <= i < |xs| ==> StartsWith(xs[i], Heading)
    ensures KeepSlides(xs) == StripAll(xs)
  {
    if xs != [] {
      HeadingSurvivesStrip(xs[0]);
      AllHeadedKept(xs[1..]);
    }
  }

  /**
   * Every part after the first is a slide: the slides are the stripped parts,
   * in document order, with the text before the first heading kept only when
   * it strips to something that itself begins with "## Slide".
   */
  lemma SlidesInOrder(markdown: string)
    requires markdown != []
    ensures var parts := Pieces(markdown, 0);
      parts != []
      && SplitSlides(markdown) ==
         (if StartsWith(Strip(parts[0]), Heading) then [Strip(parts[0])] else []) + StripAll(parts[1..])
  {
    var parts := Pieces(markdown, 0);
    AllHeadedKept(parts[1..]);
  }

  // ------------------------------------------------------------ the title

  function SkipSpaces(s: string, i: nat): (r: nat)
    requires i <= |s|
    ensures i <= r <= |s| && (r < |s| ==> !IsSpace(s[r]))
    ensures forall k :: i <= k < r ==> IsSpace(s[k])
    decreases |s| - i
  {
    if i < |s| && IsSpace(s[i]) then SkipSpaces(s, i + 1) else i
  }

  /** `\d` on ASCII digits. */
  predicate IsDigit(c: char) {
    '0' <= c <= '9'
  }

  function SkipDigits(s: string, i: nat): (r: nat)
    requires i <= |s|
    ensures i <= r <= |s| && (r < |s| ==> !IsDigit(s[r]))
    ensures forall k :: i <= k < r ==> IsDigit(s[k])
    decreases |s| - i
  {
    if i < |s| && IsDigit(s[i]) then SkipDigits(s, i + 1) else i
  }

  /** A line of text as `splitlines()` yields it. */
  predicate IsLine(line: string) {
    forall k :: 0 <= k < |line| ==> !IsLineBreak(line[k])
  }

  /**
   * `re.match(r"## Slide\s+\d+\s+[–-]\s+(.+)", line)`, answering the stripped
   * group. The three classes never overlap, so each run is taken whole; after
   * the dash, `\s+(.+)` needs a space and at least one more character, and the
   * stripped group is then the stripped rest of the line.
   */
  function TitleMatch(line: string): (r: Option<string>)
    requires IsLine(line)
    ensures r.Some? ==> StartsWith(line, Heading)
    ensures r.Some? && r.value != [] ==> !IsSpace(r.value[0]) && !IsSpace(r.value[|r.value| - 1])
  {
    if !StartsWith(line, Heading) then None
    else
      var a := SkipSpaces(line, |Heading|);
      var b := SkipDigits(line, a);
      var c := SkipSpaces(line, b);
      if a == |Heading| || b == a || c == b || c == |line| || !(line[c] == '–' || line[c] == '-') then None
      else
        var rest := line[c + 1..];
        if |rest| < 2 || !IsSpace(rest[0]) then None else Some(Strip(rest))
  }

  /** The title: the matched text, or else the first line without "##", stripped. */
  function Title(line: string): (r: string)
    requires IsLine(line)
    ensures TitleMatch(line).None? ==> r == Strip(RemoveAll(line, "##"))
    ensures TitleMatch(line).Some? ==> r == TitleMatch(line).value
  {
    match TitleMatch(line)
    case Some(t) => t
    case None => Strip(RemoveAll(line, "##"))
  }

  /** The match succeeds on "## Slide", spaces, digits, spaces, a dash, and a space followed by text. */
  lemma MatchOfParts(line: string, n: nat)
    requires IsLine(line) && |line| >= 13 + n && n > 0
    requires line[..|Heading|] == Heading && IsSpace(line[8])
    requires forall k :: 9 <= k < 9 + n ==> IsDigit(line[k])
    requires line[9 + n] == ' ' && (line[10 + n] == '–' || line[10 + n] == '-') && line[11 + n] == ' '
    ensures TitleMatch(line) == Some(Strip(line[11 + n..]))
  {
    assert !IsSpace(line[9]);
    assert SkipSpaces(line, 8) == 9;
    var b := SkipDigits(line, 9);
    assert b == 9 + n;
    assert SkipSpaces(line, b) == 10 + n;
  }

  /** A numbered heading "## Slide <number> – <title>" (or with "-") has exactly that title. */
  lemma NumberedTitle(digits: string, dash: char, t: string)
    requires digits != [] && forall k :: 0 <= k < |digits| ==> IsDigit(digits[k])
    requires dash == '–' || dash == '-'
    requires t != [] && !IsSpace(t[0]) && !IsSpace(t[|t| - 1]) && IsLine(t)
    ensures IsLine(NumberedHeading(digits, dash) + t)
    ensures Title(NumberedHeading(digits, dash) + t) == t
  {
    var prefix := NumberedHeading(digits, dash);
    var line := prefix + t;
    LineConcat(prefix, t);
    HeadingPartsKept(prefix, t, |digits|);
    MatchOfParts(line, |digits|);
    SpaceThenText(t);
  }

  /** "## Slide <digits> <dash> " */
  function NumberedHeading(digits: string, dash: char): (p: string)
    requires digits != [] && forall k :: 0 <= k < |digits| ==> IsDigit(digits[k])
    requires dash == '–' || dash == '-'
    ensures var n := |digits|;
      |p| == 12 + n && p[..|Heading|] == Heading && p[8] == ' '
      && (forall k :: 9 <= k < 9 + n ==> IsDigit(p[k]))
      && p[9 + n] == ' ' && p[10 + n] == dash && p[11 + n] == ' '
      && IsLine(p)
  {
    var p := Heading + " " + digits + " " + [dash] + " ";
    assert forall k :: 9 <= k < 9 + |digits| ==> p[k] == digits[k - 9];
    assert p[..|Heading|] == Heading;
    p
  }

  lemma HeadingPartsKept(prefix: string, t: string, n: nat)
    requires |prefix| == 12 + n && prefix[..|Heading|] == Heading && IsSpace(prefix[8])
    requires forall k :: 9 <= k < 9 + n ==> IsDigit(prefix[k])
    requires prefix[9 + n] == ' ' && (prefix[10 + n] == '–' || prefix[10 + n] == '-') && prefix[11 + n] == ' '
    ensures var line := prefix + t;
      line[..|Heading|] == Heading && IsSpace(line[8])
      && (forall k :: 9 <= k < 9 + n ==> IsDigit(line[k]))
      && line[9 + n] == ' ' && (line[10 + n] == '–' || line[10 + n] == '-')
      && line[11 + n..] == " " + t
  {
    var line := prefix + t;
    assert forall k :: 0 <= k < |prefix| ==> line[k] == prefix[k];
    assert line[..|Heading|] == prefix[..|Heading|];
  }

  lemma LineConcat(a: string, b: string)
    requires IsLine(a) && IsLine(b)
    ensures IsLine(a + b)
  {
    assert forall k :: |a| <= k < |a + b| ==> (a + b)[k] == b[k - |a|];
  }

  /** " " + t strips to t when t has no surrounding whitespace. */
  lemma SpaceThenText(t: string)
    requires t != [] && !IsSpace(t[0]) && !IsSpace(t[|t| - 1])
    ensures Strip(" " + t) == t
  {
    assert (" " + t)[1..] == t;
    StripUnchanged(t);
  }

  /** A heading that does not match keeps its text without "##": "## Slide 3: Demo" has the title "Slide 3: Demo". */
  lemma UnmatchedTitle()
    ensures IsLine("## Slide 3: Demo")
    ensures Title("## Slide 3: Demo") == "Slide 3: Demo"
  {
    UnmatchedTitleNoMatch();
    UnmatchedTitleRemoved();
    SpaceThenText("Slide 3: Demo");
  }

  lemma UnmatchedTitleRemoved()
    ensures RemoveAll("## Slide 3: Demo", "##") == " Slide 3: Demo"
  {
    var line := "## Slide 3: Demo";
    assert line[..2] == "##";
    assert line[2..] == " Slide 3: Demo";
    RemoveAllNoPattern(" Slide 3: Demo");
  }

  lemma UnmatchedTitleNoMatch()
    ensures IsLine("## Slide 3: Demo")
    ensures TitleMatch("## Slide 3: Demo").None?
  {
    var line := "## Slide 3: Demo";
    assert line[..|Heading|] == Heading;
    assert SkipSpaces(line, 8) == 9;
    assert SkipDigits(line, 9) == 10;
    assert SkipSpaces(line, 10) == 10;
  }

  lemma RemoveAllNoPattern(s: string)
    requires forall k :: 0 <= k < |s| ==> s[k] != '#'
    ensures RemoveAll(s, "##") == s
    decreases |s|
  {
    if s != [] {
      RemoveAllNoPattern(s[1..]);
      assert s == [s[0]] + s[1..];
    }
  }

  // ------------------------------------------------------------ the line scan

  /** `line.strip().startswith("**Speaker Notes:**")` */
  predicate IsMarker(line: string) {
    StartsWith(Strip(line), NotesMarker)
  }

  /** A marker line holds the marker where its stripped text starts. */
  lemma MarkerOccurs(line: string)
    requires IsMarker(line)
    ensures OccursAt(line, NotesMarker, |line| - |LStrip(line)|)
  {
    var l := LStrip(line);
    var j := |line| - |l|;
    LStripIsSuffix(line);
    RStripIsPrefix(l);
    assert RStrip(l) == l[..|Strip(line)|];
    assert l[..|NotesMarker|] == NotesMarker;
    assert line[j..j + |NotesMarker|] == l[..|NotesMarker|];
  }

  /** `line.split("**Speaker Notes:**", 1)[1].strip().strip('*').strip()` */
  function NoteText(line: string): (r: string)
    requires IsMarker(line)
    ensures |r| + |NotesMarker| <= |line|
    ensures r != [] ==> !IsSpace(r[0]) && !IsSpace(r[|r| - 1])
  {
    MarkerOccurs(line);
    var k := Find(line, NotesMarker, 0);
    assert k != -1 by {
      var j := |line| - |LStrip(line)|;
      assert OccursAt(line, NotesMarker, j);
    }
    Strip(StripChar(Strip(line[k + |NotesMarker|..]), '*'))
  }

  /** Outside the notes, a line kept as body: not wrapped in "**", and not blank. */
  predicate IsBodyLine(line: string) {
    !(StartsWith(line, "**") && EndsWith(line, "**")) && Strip(line) != []
  }

  /** The tests the loop applies to one line, each computed once. */
  datatype LineInfo = LineInfo(line: string, marker: bool, note: string, rule: bool, body: bool)

  function Classify(line: string): (r: LineInfo)
    ensures r.line == line
  {
    LineInfo(line, IsMarker(line), if IsMarker(line) then NoteText(line) else [],
             StartsWith(line, "---"), IsBodyLine(line))
  }

  /** The classified lines. */
  function Classified(lines: seq<string>): (r: seq<LineInfo>)
    ensures |r| == |lines| && forall k :: 0 <= k < |lines| ==> r[k] == Classify(lines[k])
  {
    seq(|lines|, k requires 0 <= k < |lines| => Classify(lines[k]))
  }

  datatype ScanState = ScanState(inNotes: bool, body: seq<string>, notes: seq<string>, stopped: bool)

  /**
   * One pass of the loop over the lines after the first: a marker line switches
   * to notes mode and contributes its text if any; in notes mode a line starting
   * with "---" stops the scan and any other line is a note; before that a body
   * line is kept.
   */
  function Step(st: ScanState, x: LineInfo): ScanState {
    if st.stopped then st
    else if x.marker then st.(inNotes := true, notes := if x.note != [] then st.notes + [x.note] else st.notes)
    else if st.inNotes then
      if x.rule then st.(stopped := true) else st.(notes := st.notes + [x.line])
    else if x.body then st.(body := st.body + [x.line])
    else st
  }

  /** The state after scanning `xs[from..n]`. */
  function ScanFrom(xs: seq<LineInfo>, from: nat, n: nat): (r: ScanState)
    requires from <= n <= |xs|
    ensures r.stopped ==> r.inNotes
    decreases n - from
  {
    if n == from then ScanState(false, [], [], false)
    else Step(ScanFrom(xs, from, n - 1), xs[n - 1])
  }

  /** Once "---" has ended the notes, no later line changes anything. */
  lemma {:induction false} StopIsFinal(xs: seq<LineInfo>, from: nat, n: nat, m: nat)
    requires from <= n <= m <= |xs|
    requires ScanFrom(xs, from, n).stopped
    ensures ScanFrom(xs, from, m) == ScanFrom(xs, from, n)
    decreases m - n
  {
    if m > n {
      StopIsFinal(xs, from, n, m - 1);
    }
  }

  /**
   * In notes mode, a line that starts with "---" and is not a marker stops the
   * scan: body and notes stay as they were, whatever lines follow.
   */
  lemma SeparatorEndsNotes(lines: seq<string>, from: nat, n: nat, m: nat)
    requires from <= n < m <= |lines|
    requires var st := ScanFrom(Classified(lines), from, n); st.inNotes && !st.stopped
    requires !IsMarker(lines[n]) && StartsWith(lines[n], "---")
    ensures ScanFrom(Classified(lines), from, m) == ScanFrom(Classified(lines), from, n).(stopped := true)
  {
    StopIsFinal(Classified(lines), from, n + 1, m);
  }

  /** The index of the first marker line in `xs[from..n]`, or `n`. */
  function FirstMarker(xs: seq<LineInfo>, from: nat, n: nat): (r: nat)
    requires from <= n <= |xs|
    ensures from <= r <= n
    ensures r < n ==> xs[r].marker
    ensures forall k :: from <= k < r ==> !xs[k].marker
    decreases n - from
  {
    if n == from then from
    else
      var f := FirstMarker(xs, from, n - 1);
      if f < n - 1 then f else if xs[n - 1].marker then n - 1 else n
  }

  /** The body lines among `xs[from..n]`, in order. */
  function BodyLines(xs: seq<LineInfo>, from: nat, n: nat): (r: seq<string>)
    requires from <= n <= |xs|
    ensures |r| <= n - from
    decreases n - from
  {
    if n == from then []
    else BodyLines(xs, from, n - 1) + (if xs[n - 1].body then [xs[n - 1].line] else [])
  }

  /**
   * Notes mode starts at the first marker and never ends; the body is exactly
   * the body lines before that marker, and there are no notes before it.
   */
  lemma {:induction false} BodyBeforeNotes(xs: seq<LineInfo>, from: nat, n: nat)
    requires from <= n <= |xs|
    ensures ScanFrom(xs, from, n).inNotes <==> FirstMarker(xs, from, n) < n
    ensures ScanFrom(xs, from, n).body == BodyLines(xs, from, FirstMarker(xs, from, n))
    ensures FirstMarker(xs, from, n) == n ==> ScanFrom(xs, from, n).notes == []
    decreases n - from
  {
    if n > from {
      BodyBeforeNotes(xs, from, n - 1);
    }
  }

  // ------------------------------------------------------------ bullets and notes

  /** `re.match(r"^\d+\.\s", s)` */
  predicate IsNumberedItem(s: string) {
    var d := SkipDigits(s, 0);
    0 < d && d + 1 < |s| && s[d] == '.' && IsSpace(s[d + 1])
  }

  /** `s` starts with `d` > 0 digits, then a dot, then a whitespace character. */
  predicate NumberedAt(s: string, d: int) {
    0 < d && d + 1 < |s| && (forall k :: 0 <= k < d ==> IsDigit(s[k])) && s[d] == '.' && IsSpace(s[d + 1])
  }

  /** The scan from `i` stops at the first non-digit `d`. */
  lemma {:induction false} SkipDigitsTo(s: string, i: nat, d: nat)
    requires i <= d < |s| && !IsDigit(s[d])
    requires forall k :: i <= k < d ==> IsDigit(s[k])
    ensures SkipDigits(s, i) == d
    decreases d - i
  {
    if i < d {
      SkipDigitsTo(s, i + 1, d);
    }
  }

  /** The pattern `^\d+\.\s`, stated without the scan: some digit run is followed by a dot and a whitespace character. */
  lemma NumberedItemShape(s: string)
    ensures IsNumberedItem(s) <==> exists d :: NumberedAt(s, d)
  {
    if IsNumberedItem(s) {
      assert NumberedAt(s, SkipDigits(s, 0));
    }
    if exists d :: NumberedAt(s, d) {
      var d :| NumberedAt(s, d);
      SkipDigitsTo(s, 0, d);
    }
  }

  /**
   * The bullet a body line yields: a list item loses its "- " or "* " marker,
   * a fence line or blank line yields none, and any other line is kept
   * stripped (numbered items and table rows included).
   */
  function Bullet(line: string): Option<string> {
    var s := Strip(line);
    if StartsWith(s, "- ") || StartsWith(s, "* ") then
      assert IsSpace(s[1]);
      assert s[2..][|s| - 3] == s[|s| - 1];
      Some(Strip(s[2..]))
    else if s == [] || StartsWith(s, "```") then None
    else Some(s)
  }

  /** A kept bullet is never empty: "- " followed by blanks only is no list marker once stripped. */
  lemma BulletNonEmpty(line: string)
    ensures Bullet(line).Some? ==> Bullet(line).value != []
  {
    var s := Strip(line);
    if StartsWith(s, "- ") || StartsWith(s, "* ") {
      assert IsSpace(s[1]);
      assert s[2..][|s| - 3] == s[|s| - 1];
    }
  }

  /**
   * One pass of the bullet loop, branch by branch as written. The numbered-item
   * and table branches keep the stripped line just as the last branch does.
   */
  method CleanLine(line: string) returns (b: Option<string>)
    ensures b == Bullet(line)
  {
    var stripped := Strip(line);
    if StartsWith(stripped, "- ") || StartsWith(stripped, "* ") {
      b := Some(Strip(stripped[2..]));
    } else if StartsWith(stripped, "1.") || IsNumberedItem(stripped) {
      b := Some(stripped);
    } else if StartsWith(stripped, "|") && Contains(stripped[1..], "|") {
      b := Some(stripped);
    } else if StartsWith(stripped, "```") {
      b := None;
    } else if stripped != [] {
      b := Some(stripped);
    } else {
      b := None;
    }
  }

  /** The bullets of the first `n` body lines, in order. */
  function Bullets(body: seq<string>, n: nat): (r: seq<string>)
    requires n <= |body|
    ensures |r| <= n
  {
    if n == 0 then []
    else
      var b := Bullet(body[n - 1]);
      Bullets(body, n - 1) + (if b.Some? then [b.value] else [])
  }

  lemma BulletsStep(body: seq<string>, j: nat, b: Option<string>)
    requires j < |body| && b == Bullet(body[j])
    ensures Bullets(body, j + 1) == Bullets(body, j) + (if b.Some? then [b.value] else [])
  {
  }

  /** `[l.rstrip() for l in notes[..n] if l.strip()]` */
  function NonBlankNotes(notes: seq<string>, n: nat): (r: seq<string>)
    requires n <= |notes|
    ensures |r| <= n
    ensures forall i :: 0 <= i < |r| ==> r[i] != []
    ensures r == [] <==> forall i :: 0 <= i < n ==> Strip(notes[i]) == []
  {
    if n == 0 then []
    else
      var init := NonBlankNotes(notes, n - 1);
      if Strip(notes[n - 1]) != [] then init + [RStrip(notes[n - 1])] else init
  }

  /** A note line is kept right-stripped, so none is empty or ends in whitespace. */
  lemma NoteLineKept(s: string)
    requires Strip(s) != []
    ensures RStrip(s) != [] && !IsSpace(RStrip(s)[|RStrip(s)| - 1])
  {
  }

  /** `"\n".join(...)` of the non-blank note lines. */
  function SpeakerNotes(notes: seq<string>): (r: string)
    ensures r == [] <==> forall i :: 0 <= i < |notes| ==> Strip(notes[i]) == []
  {
    Join(NonBlankNotes(notes, |notes|), "\n")
  }

  // ------------------------------------------------------------ parse_slide

  datatype Slide = Slide(title: string, bullets: seq<string>, speaker_notes: string)

  /** The loop over the lines after the first: the body lines and the note lines. */
  method ScanLines(lines: seq<string>) returns (body: seq<string>, notes: seq<string>)
    requires lines != []
    ensures var st := ScanFrom(Classified(lines), 1, |lines|); body == st.body && notes == st.notes
  {
    ghost var xs := Classified(lines);
    body, notes := [], [];
    var inNotes := false;
    var i := 1;
    while i < |lines|
      invariant 1 <= i <= |lines|
      invariant ScanFrom(xs, 1, i) == ScanState(inNotes, body, notes, false)
    {
      var x := Classify(lines[i]);
      assert xs[i] == x;
      if x.marker {
        inNotes := true;
        if x.note != [] {
          notes := notes + [x.note];
        }
      } else if inNotes {
        if x.rule {
          StopIsFinal(xs, 1, i + 1, |lines|);
          break;
        }
        notes := notes + [x.line];
      } else if x.body {
        body := body + [x.line];
      }
      i := i + 1;
    }
  }

  /** The loop over the body lines: their bullets, in order. */
  method CleanBullets(body: seq<string>) returns (bullets: seq<string>)
    ensures bullets == Bullets(body, |body|)
  {
    bullets := [];
    var j := 0;
    while j < |body|
      invariant 0 <= j <= |body|
      invariant bullets == Bullets(body, j)
    {
      var b := CleanLine(body[j]);
      BulletsStep(body, j, b);
      bullets := bullets + (if b.Some? then [b.value] else []);
      j := j + 1;
    }
  }

  /**
   * `parse_slide`: the title from the first line, the first twenty bullets of
   * the body, and the speaker notes. An empty block has no first line and
   * raises IndexError, modelled as None.
   */
  method ParseSlide(block: string) returns (r: Option<Slide>)
    ensures r.None? <==> block == []
    ensures r.Some? ==>
      var lines := SplitLines(block);
      var st := ScanFrom(Classified(lines), 1, |lines|);
      var bullets := Bullets(st.body, |st.body|);
      IsLine(lines[0])
      && r.value.title == Title(lines[0])
      && r.value.bullets == (if |bullets| <= 20 then bullets else bullets[..20])
      && r.value.speaker_notes == SpeakerNotes(st.notes)
  {
    var lines := SplitLines(block);
    if lines == [] {
      return None;
    }
    var title := Title(lines[0]);
    var body, notes := ScanLines(lines);
    var bullets := CleanBullets(body);
    if |bullets| > 20 {
      bullets := bullets[..20];
    }
    return Some(Slide(title, bullets, SpeakerNotes(notes)));
  }
}
