/**
 Bare JSON in a reply: an object or array written line by line is one region, from its
 opening bracket to the line on which that bracket is closed, whatever its strings hold.
 */
module GuardObjects {
  import opened Util
  import opened Sequences
  import opened Text
  import opened LineFeed
  import opened GuardState
  import opened GuardChunks
  import opened GuardRender
  import opened GuardRegions

  // ---------------------------------------------------------------- bracketed texts

  /** A piece of a bracketed text: a character, a string, or a group in brackets. */
  datatype Part = Other(c: char) | Quoted(chars: seq<StringChar>) | Group(open: char, parts: seq<Part>, close: char)

  predicate IsOpen(c: char) {
    c == '{' || c == '['
  }

  predicate IsClose(c: char) {
    c == '}' || c == ']'
  }

  predicate IsPart(p: Part) {
    match p
    case Other(c) => c != '"' && !IsOpen(c) && !IsClose(c)
    case Quoted(chars) => IsString(chars)
    case Group(open, parts, close) =>
      IsOpen(open) && IsClose(close) && forall k :: 0 <= k < |parts| ==> IsPart(parts[k])
  }

  predicate AreParts(ps: seq<Part>) {
    forall k :: 0 <= k < |ps| ==> IsPart(ps[k])
  }

  function PartText(p: Part): string
    decreases p, 0
  {
    match p
    case Other(c) => [c]
    case Quoted(chars) => "\"" + (InQuotes(chars) + "\"")
    case Group(open, parts, close) => [open] + (TextOf(parts) + [close])
  }

  function TextOf(ps: seq<Part>): string
    decreases ps, 1
  {
    if ps == [] then "" else PartText(ps[0]) + TextOf(ps[1..])
  }

  lemma {:induction false} ScannedBoth(b: Brackets, s: string, t: string)
    ensures Scanned(b, s + t) == Scanned(Scanned(b, s), t)
    decreases |s|
  {
    if s == "" {
      Nothing(t);
    } else {
      assert (s + t)[1..] == s[1..] + t;
      ScannedBoth(ScanChar(b, s[0]), s[1..], t);
    }
  }

  lemma ScannedOne(b: Brackets, c: char)
    ensures Scanned(b, [c]) == ScanChar(b, c)
  {
    assert [c][1..] == "";
  }

  /** The scanner within a string: the depth does not change. */
  lemma {:induction false} StringScans(d: int, chars: seq<StringChar>)
    requires IsString(chars)
    ensures Scanned(Brackets(d, true, false), InQuotes(chars)) == Brackets(d, true, false)
  {
    if chars != [] {
      var b := Brackets(d, true, false);
      var first := match chars[0] case Bare(c) => [c] case Escaped(c) => ['\\', c];
      StringScans(d, chars[1..]);
      ScannedBoth(b, first, InQuotes(chars[1..]));
      match chars[0]
      case Bare(c) => ScannedOne(b, c);
      case Escaped(c) =>
        ScannedBoth(b, ['\\'], [c]);
        ScannedOne(b, '\\');
        ScannedOne(ScanChar(b, '\\'), c);
    }
  }

  // --------------------------------------------------------- the depth never falls below

  /** From here on the depth never falls below `d`. */
  predicate Above(b: Brackets, t: string, d: int) {
    forall k :: 0 <= k <= |t| ==> Scanned(b, t[..k]).depth >= d
  }

  lemma AboveBoth(b: Brackets, s: string, t: string, d: int)
    requires Above(b, s, d) && Above(Scanned(b, s), t, d)
    ensures Above(b, s + t, d)
  {
    forall k | 0 <= k <= |s + t| ensures Scanned(b, (s + t)[..k]).depth >= d {
      if k <= |s| {
        TakeWithin(s, t, k);
      } else {
        assert (s + t)[..k] == s + t[..k - |s|];
        ScannedBoth(b, s, t[..k - |s|]);
      }
    }
  }

  lemma AboveOne(b: Brackets, c: char, d: int)
    requires b.depth >= d && ScanChar(b, c).depth >= d
    ensures Above(b, [c], d)
  {
    ScannedOne(b, c);
    forall k | 0 <= k <= 1 ensures Scanned(b, [c][..k]).depth >= d {
      if k == 1 {
        assert [c][..k] == [c];
      } else {
        assert [c][..k] == "";
      }
    }
  }

  lemma {:induction false} StringAbove(d: int, chars: seq<StringChar>)
    requires IsString(chars)
    ensures Above(Brackets(d, true, false), InQuotes(chars), d)
  {
    if chars != [] {
      var b := Brackets(d, true, false);
      StringAbove(d, chars[1..]);
      StringScans(d, chars[..1]);
      StringCharAbove(d, chars[0]);
      OneInQuotes(chars);
      AboveBoth(b, InQuotes(chars[..1]), InQuotes(chars[1..]), d);
    }
  }

  lemma OneInQuotes(chars: seq<StringChar>)
    requires chars != []
    ensures InQuotes(chars) == InQuotes(chars[..1]) + InQuotes(chars[1..])
    ensures InQuotes(chars[..1]) == match chars[0] case Bare(c) => [c] case Escaped(c) => ['\\', c]
  {
    assert chars[..1][1..] == [];
  }

  lemma StringCharAbove(d: int, x: StringChar)
    requires IsString([x])
    ensures Above(Brackets(d, true, false), match x case Bare(c) => [c] case Escaped(c) => ['\\', c], d)
  {
    var b := Brackets(d, true, false);
    assert [x][0] == x;
    match x
    case Bare(c) => AboveOne(b, c, d);
    case Escaped(c) =>
      AboveOne(b, '\\', d);
      ScannedOne(b, '\\');
      AboveOne(ScanChar(b, '\\'), c, d);
      AboveBoth(b, ['\\'], [c], d);
      assert ['\\'] + [c] == ['\\', c];
  }

  /** Three texts one after the other. */
  lemma InThree(b: Brackets, x: string, y: string, z: string, d: int)
    requires Above(b, x, d) && Above(Scanned(b, x), y, d) && Above(Scanned(Scanned(b, x), y), z, d)
    ensures Above(b, x + (y + z), d) && Scanned(b, x + (y + z)) == Scanned(Scanned(Scanned(b, x), y), z)
  {
    AboveBoth(Scanned(b, x), y, z, d);
    AboveBoth(b, x, y + z, d);
    ScannedBoth(b, x, y + z);
    ScannedBoth(Scanned(b, x), y, z);
  }

  /** A string, read from outside, leaves the scanner where it was. */
  lemma QuotedScans(d: int, chars: seq<StringChar>)
    requires IsString(chars)
    ensures var b := Brackets(d, false, false);
            Scanned(b, PartText(Quoted(chars))) == b && Above(b, PartText(Quoted(chars)), d)
  {
    var b, inside := Brackets(d, false, false), Brackets(d, true, false);
    ScannedOne(b, '"');
    AboveOne(b, '"', d);
    StringScans(d, chars);
    StringAbove(d, chars);
    ScannedOne(inside, '"');
    AboveOne(inside, '"', d);
    InThree(b, "\"", InQuotes(chars), "\"", d);
  }

  lemma {:induction false} PartScans(d: int, p: Part)
    requires IsPart(p)
    ensures var b := Brackets(d, false, false); Scanned(b, PartText(p)) == b && Above(b, PartText(p), d)
    decreases p, 0
  {
    var b := Brackets(d, false, false);
    match p
    case Other(c) =>
      ScannedOne(b, c);
      AboveOne(b, c, d);
    case Quoted(chars) => QuotedScans(d, chars);
    case Group(open, parts, close) =>
      TextScans(d + 1, parts);
      GroupScans(d, open, TextOf(parts), close);
  }

  lemma GroupScans(d: int, open: char, inner: string, close: char)
    requires IsOpen(open) && IsClose(close)
    requires var inside := Brackets(d + 1, false, false);
             Scanned(inside, inner) == inside && Above(inside, inner, d + 1)
    ensures var b := Brackets(d, false, false);
            Scanned(b, [open] + (inner + [close])) == b && Above(b, [open] + (inner + [close]), d)
  {
    var b, inside := Brackets(d, false, false), Brackets(d + 1, false, false);
    ScannedOne(b, open);
    AboveOne(b, open, d);
    ScannedOne(inside, close);
    AboveOne(inside, close, d);
    InThree(b, [open], inner, [close], d);
  }

  lemma {:induction false} TextScans(d: int, ps: seq<Part>)
    requires AreParts(ps)
    ensures var b := Brackets(d, false, false); Scanned(b, TextOf(ps)) == b && Above(b, TextOf(ps), d)
    decreases ps, 1
  {
    var b := Brackets(d, false, false);
    if ps != [] {
      PartScans(d, ps[0]);
      TextScans(d, ps[1..]);
      ScannedBoth(b, PartText(ps[0]), TextOf(ps[1..]));
      AboveBoth(b, PartText(ps[0]), TextOf(ps[1..]), d);
    }
  }

  // ------------------------------------------------------------------------ regions

  /** Nothing that the scanner counts, on one line. */
  predicate IsNeutral(s: string) {
    forall k :: 0 <= k < |s| ==> s[k] != '"' && !IsOpen(s[k]) && !IsClose(s[k]) && s[k] != '\n'
  }

  lemma {:induction false} NeutralScans(b: Brackets, s: string)
    requires IsNeutral(s) && !b.inStr
    ensures Scanned(b, s) == b
  {
    if s != "" {
      NeutralScans(b, s[1..]);
    }
  }

  /** An object or array as it stands in a reply, its last line included. */
  function ObjectOf(pre: string, open: char, ps: seq<Part>, close: char, post: string): string {
    pre + ([open] + (TextOf(ps) + ([close] + (post + "\n"))))
  }

  /** What follows a bracket for it to begin an array: nothing on its line, or a bracket, a
      brace or a quote. */
  predicate BeginsArray(behind: string) {
    exists k :: 0 <= k < |behind| && Blanks(behind[..k]) &&
                (behind[k] == '{' || behind[k] == '[' || behind[k] == '"' || behind[k] == '\n')
  }

  predicate IsObject(pre: string, open: char, ps: seq<Part>, close: char, post: string) {
    && Indentation(pre) && AreParts(ps) && IsClose(close) && IsNeutral(post)
    && (open == '{' || (open == '[' && BeginsArray(TextOf(ps) + ([close] + (post + "\n")))))
  }

  /** The brackets are balanced at the end. */
  lemma ObjectBalances(pre: string, open: char, ps: seq<Part>, close: char, post: string)
    requires IsObject(pre, open, ps, close, post)
    ensures Scanned(NO_BRACKETS, ObjectOf(pre, open, ps, close, post)).depth == 0
  {
    var inner, tail := TextOf(ps), [close] + (post + "\n");
    var b, inside := NO_BRACKETS, Brackets(1, false, false);
    NeutralScans(b, pre);
    ScannedBoth(b, pre, [open] + (inner + tail));
    ScannedOne(b, open);
    ScannedBoth(b, [open], inner + tail);
    TextScans(1, ps);
    ScannedBoth(inside, inner, tail);
    ScannedOne(inside, close);
    ScannedBoth(inside, [close], post + "\n");
    NeutralScans(b, post);
    ScannedBoth(b, post, "\n");
    ScannedOne(b, '\n');
  }

  lemma BreaksInside(head: string, inner: string, tail: string, k: nat)
    requires HasNoBreak(head) && IsComplete(tail) && HasNoBreak(tail[..|tail| - 1])
    requires var s := head + (inner + tail); k < |s| - 1 && s[k] == '\n'
    ensures |head| <= k < |head| + |inner|
  {
    var s := head + (inner + tail);
    assert forall j :: 0 <= j < |head| ==> s[j] == head[j];
    assert forall j :: |head| + |inner| <= j < |s| ==> s[j] == tail[j - |head| - |inner|];
  }

  /** They are not at the end of any line before. */
  lemma ObjectIsOpen(pre: string, open: char, ps: seq<Part>, close: char, post: string, k: nat)
    requires IsObject(pre, open, ps, close, post)
    requires var s := ObjectOf(pre, open, ps, close, post); 0 < k < |s| && s[k - 1] == '\n'
    ensures Scanned(NO_BRACKETS, ObjectOf(pre, open, ps, close, post)[..k]).depth >= 1
  {
    var s := ObjectOf(pre, open, ps, close, post);
    var inner, tail, n := TextOf(ps), [close] + (post + "\n"), |pre| + 1;
    assert tail[..|tail| - 1] == [close] + post;
    BreaksInside(pre + [open], inner, tail, k - 1);
    assert s == (pre + [open]) + (inner + tail);
    assert s[..k] == pre + ([open] + inner[..k - n]);
    NeutralScans(NO_BRACKETS, pre);
    ScannedBoth(NO_BRACKETS, pre, [open] + inner[..k - n]);
    ScannedOne(NO_BRACKETS, open);
    ScannedBoth(NO_BRACKETS, [open], inner[..k - n]);
    TextScans(1, ps);
  }

  // -------------------------------------------------------------------- as one region

  lemma {:induction false} BalancedAfter(lines: seq<string>, more: seq<string>, b: Brackets)
    requires lines != [] && forall k :: 0 <= k < |lines| ==> IsComplete(lines[k])
    requires forall k :: 0 < k < |lines| ==> Scanned(b, Concat(lines[..k])).depth > 0
    requires Scanned(b, Concat(lines)).depth <= 0
    ensures BalancedLines(lines + more, b) == |lines|
    decreases |lines|
  {
    var b' := Scanned(b, lines[0]);
    HeadTail(lines);
    Rejoin([lines[0]], lines[1..], more);
    Cons(lines[0], lines[1..] + more);
    ScannedBoth(b, lines[0], Concat(lines[1..]));
    if |lines| > 1 {
      assert lines[..1] == [lines[0]] && [lines[0]][1..] == [];
      assert Concat(lines[..1]) == lines[0] + "" == lines[0];
      forall k | 0 < k < |lines[1..]| ensures Scanned(b', Concat(lines[1..][..k])).depth > 0 {
        assert lines[..k + 1] == [lines[0]] + lines[1..][..k];
        Cons(lines[0], lines[1..][..k]);
        ScannedBoth(b, lines[0], Concat(lines[1..][..k]));
      }
      BalancedAfter(lines[1..], more, b');
    } else {
      assert lines[1..] == [];
      ScannedBoth(b, lines[0], "");
    }
  }

  /** A front of the text that ends with a line break before its end. */
  predicate IsLinesFront(front: string, s: string) {
    0 < |front| < |s| && front == s[..|front|] && front[|front| - 1] == '\n'
  }

  lemma FrontBehindLine(front: string, s: string, n: nat)
    requires n <= |s| && IsLinesFront(front, s[n..])
    ensures IsLinesFront(s[..n] + front, s)
  {
    assert s[..n] + front == s[..n + |front|];
  }

  lemma {:induction false} FrontOfLines(s: string, k: nat)
    requires 0 < k < |Lines(s)|
    ensures IsLinesFront(Concat(Lines(s)[..k]), s)
    decreases |s|
  {
    var n := FirstLine(s);
    var line, rest := s[..n], s[n..];
    FirstLineBreaks(s);
    assert rest != "";
    assert Lines(s)[..k] == [line] + Lines(rest)[..k - 1];
    Cons(line, Lines(rest)[..k - 1]);
    if k > 1 {
      FrontOfLines(rest, k - 1);
      FrontBehindLine(Concat(Lines(rest)[..k - 1]), s, n);
    } else {
      assert Lines(rest)[..0] == [];
      Nothing(line);
    }
  }

  /** A region that the guard repairs as a whole. */
  lemma RegionRendering(region: string, rest: string, fix: Fixer)
    requires IsComplete(region) && Scanned(NO_BRACKETS, region).depth <= 0
    requires forall k :: 0 < k < |region| && region[k - 1] == '\n' ==> Scanned(NO_BRACKETS, region[..k]).depth > 0
    requires var t := TrimSpace(Lines(region)[0]); !HasPrefix(t, FENCE) && StartsRawJSON(t)
    ensures Rendered(region + rest, fix) == Prepend(fix(region).text, fix(region).count, Rendered(rest, fix))
  {
    var lines, more := Lines(region), Lines(rest);
    LinesOfBoth(region, rest);
    LinesComplete(region);
    LinesConcat(region);
    forall k | 0 < k < |lines| ensures Scanned(NO_BRACKETS, Concat(lines[..k])).depth > 0 {
      FrontOfLines(region, k);
    }
    BalancedAfter(lines, more, NO_BRACKETS);
    RawSegment(lines + more, fix);
    Parts(lines, more);
    Nothing(region);
  }

  /** The first line of a text whose front holds no break. */
  lemma FirstLineBehind(head: string, behind: string)
    requires HasNoBreak(head) && head != ""
    ensures var s := head + behind;
            var m := FirstLine(s) - |head|;
            && 0 <= m <= |behind| && s[..FirstLine(s)] == head + behind[..m]
            && HasNoBreak(behind[..if m > 0 then m - 1 else 0])
            && (m == |behind| || (m > 0 && behind[m - 1] == '\n'))
  {
    var s := head + behind;
    var n := FirstLine(s);
    FirstLineBreaks(s);
    assert forall j :: 0 <= j < |head| ==> s[j] == head[j];
    assert s[n - 1] == if n <= |head| then head[n - 1] else behind[n - 1 - |head|];
    assert forall j :: 0 <= j < |behind| ==> s[|head| + j] == behind[j];
    assert s[..n] == head + behind[..n - |head|];
    forall j | 0 <= j < n - |head| - 1 ensures behind[j] != '\n' {
      assert s[..n - 1][|head| + j] == behind[j];
    }
  }

  /** The first line of an object or array. */
  lemma FirstLineOfObject(pre: string, open: char, behind: string)
    requires Indentation(pre) && (open == '{' || (open == '[' && BeginsArray(behind)))
    ensures var s := pre + ([open] + behind);
            var t := TrimSpace(s[..FirstLine(s)]); !HasPrefix(t, FENCE) && StartsRawJSON(t)
  {
    var s := pre + ([open] + behind);
    var m := FirstLine(s) - |pre| - 1;
    assert s == (pre + [open]) + behind;
    FirstLineBehind(pre + [open], behind);
    var u := behind[..m];
    assert (pre + [open]) + u == pre + ([open] + u);
    TrimSpaceBehindBlanks(pre, open, u);
    if open == '[' {
      ArrayLine(behind, m);
    }
    BracketDecides(open, TrimSpaceRight(u));
  }

  lemma BracketDecides(open: char, u: string)
    requires open == '{' || (open == '[' && (TrimSpace(u) == "" || TrimSpace(u)[0] in "{[\""))
    ensures !HasPrefix([open] + u, FENCE) && StartsRawJSON([open] + u)
  {
    var t := [open] + u;
    assert t[0] == open && t[1..] == u;
    assert |t| >= 3 ==> t[..3][0] == t[0];
  }

  lemma {:induction false} TrimmedKeeps(u: string, k: nat)
    requires k < |u| && !IsSpace(u[k])
    ensures |TrimSpaceRight(u)| > k && TrimSpaceRight(u) == u[..|TrimSpaceRight(u)|]
    decreases |u|
  {
    if IsSpace(u[|u| - 1]) {
      TrimmedKeeps(u[..|u| - 1], k);
      var t := TrimSpaceRight(u[..|u| - 1]);
      assert u[..|u| - 1][..|t|] == u[..|t|];
    } else {
      Whole(u);
    }
  }

  lemma ArrayLine(behind: string, m: nat)
    requires BeginsArray(behind) && m <= |behind| && HasNoBreak(behind[..if m > 0 then m - 1 else 0])
    requires m == |behind| || (m > 0 && behind[m - 1] == '\n')
    ensures var rest := TrimSpace(TrimSpaceRight(behind[..m])); rest == "" || rest[0] in "{[\""
  {
    var k :| 0 <= k < |behind| && Blanks(behind[..k]) &&
             (behind[k] == '{' || behind[k] == '[' || behind[k] == '"' || behind[k] == '\n');
    var u := behind[..m];
    assert forall j :: 0 <= j < k ==> behind[j] == behind[..k][j];
    if behind[k] != '\n' {
      assert k < m;
      TrimmedKeeps(u, k);
      TrimSpaceHead(TrimSpaceRight(u), k);
    } else {
      assert forall j :: 0 <= j < m ==> IsSpace(u[j]);
      TrimBehind("", u);
      Nothing(u);
      assert TrimSpace("") == "";
    }
  }

  lemma ObjectIsLined(pre: string, open: char, ps: seq<Part>, close: char, post: string)
    requires IsObject(pre, open, ps, close, post)
    ensures var s := ObjectOf(pre, open, ps, close, post);
            var t := TrimSpace(Lines(s)[0]); IsComplete(s) && !HasPrefix(t, FENCE) && StartsRawJSON(t)
  {
    var behind := TextOf(ps) + ([close] + (post + "\n"));
    FirstLineOfObject(pre, open, behind);
    assert behind[|behind| - 1] == '\n';
  }

  /** An object, or an array that begins so, is repaired as one region up to the line of its
      closing bracket, whatever brackets and quotes its strings hold; the rendering of the
      rest follows. */
  lemma ObjectIsRepaired(pre: string, open: char, ps: seq<Part>, close: char, post: string, rest: string, fix: Fixer)
    requires IsObject(pre, open, ps, close, post)
    ensures var region := ObjectOf(pre, open, ps, close, post);
            Rendered(region + rest, fix) == Prepend(fix(region).text, fix(region).count, Rendered(rest, fix))
  {
    var region := ObjectOf(pre, open, ps, close, post);
    ObjectIsLined(pre, open, ps, close, post);
    ObjectBalances(pre, open, ps, close, post);
    forall k | 0 < k < |region| && region[k - 1] == '\n' ensures Scanned(NO_BRACKETS, region[..k]).depth > 0 {
      ObjectIsOpen(pre, open, ps, close, post, k);
    }
    RegionRendering(region, rest, fix);
  }

  // ------------------------------------------------------------------ however it is cut

  /** The brackets are balanced at the end of the text, and at no line break before. */
  predicate EndsBalanced(b: Brackets, text: string) {
    && IsComplete(text) && Scanned(b, text).depth <= 0
    && forall k :: 0 < k < |text| && text[k - 1] == '\n' ==> Scanned(b, text[..k]).depth > 0
  }

  lemma BalancedBehind(b: Brackets, text: string)
    requires EndsBalanced(b, text)
    ensures var n := FirstLine(text);
            var b' := Scanned(b, text[..n]);
            && IsOneLine(text[..n])
            && (if n == |text| then b'.depth <= 0 else b'.depth > 0 && EndsBalanced(b', text[n..]))
  {
    var n := FirstLine(text);
    var b' := Scanned(b, text[..n]);
    FirstLineBreaks(text);
    assert text[..n][..n - 1] == text[..n - 1];
    if n == |text| {
      Whole(text);
    } else {
      var more := text[n..];
      SplitAt(text, n);
      ScannedBoth(b, text[..n], more);
      assert more[|more| - 1] == text[|text| - 1];
      forall k | 0 < k < |more| && more[k - 1] == '\n' ensures Scanned(b', more[..k]).depth > 0 {
        assert text[..n + k] == text[..n] + more[..k] && text[n + k - 1] == '\n';
        ScannedBoth(b, text[..n], more[..k]);
      }
    }
  }

  predicate InRegion(g: Guard, b: Brackets) {
    g.phase.InRaw? && g.phase.line == "" && g.phase.brackets == b
  }

  lemma RegionLineConsumed(g: Guard, b: Brackets, line: string, fix: Fixer)
    requires InRegion(g, b) && IsOneLine(line)
    ensures var next := Consumed(g, line, true, fix).state;
            if Scanned(b, line).depth <= 0 then next.phase == AtLine("", false) else InRegion(next, Scanned(b, line))
  {
    Nothing(line);
  }

  /** Inside a region every line may be cut. */
  lemma {:induction false} RegionIsCutSafe(g: Guard, b: Brackets, text: string, rest: string, fix: Fixer)
    requires InRegion(g, b) && EndsBalanced(b, text) && PlainLines(rest)
    ensures CutSafe(g, text + rest, fix)
    decreases |text|
  {
    var n := FirstLine(text);
    var line, more := text[..n], text[n..];
    var next := Consumed(g, line, true, fix).state;
    BalancedBehind(b, text);
    RegionLineConsumed(g, b, line, fix);
    if n == |text| {
      PlainTextsAreCutSafe(next, rest, fix);
      FirstLineSafe(g, line, rest, fix);
      Whole(text);
    } else {
      RegionIsCutSafe(next, Scanned(b, line), more, rest, fix);
      FirstLineSafe(g, line, more + rest, fix);
      SplitAt(text, n);
      Rejoin(line, more, rest);
    }
  }

  /** The line that opens a region. */
  lemma OpeningLineConsumed(line: string, fix: Fixer)
    requires IsOneLine(line) && PlainlyIndented(line)
    requires var t := TrimSpace(line); t != "" && !HasPrefix(t, FENCE) && StartsRawJSON(t)
    ensures SafeHere(FRESH, line, true, fix)
    ensures var b := Scanned(NO_BRACKETS, line);
            var next := Consumed(FRESH, line, true, fix).state;
            if b.depth <= 0 then next.phase == AtLine("", false) else InRegion(next, b)
  {
    Nothing(line);
  }

  lemma WholeRegionIsCutSafe(text: string, rest: string, fix: Fixer)
    requires EndsBalanced(NO_BRACKETS, text) && PlainLines(rest) && PlainlyIndented(text[..FirstLine(text)])
    requires var t := TrimSpace(text[..FirstLine(text)]); t != "" && !HasPrefix(t, FENCE) && StartsRawJSON(t)
    ensures CutSafe(FRESH, text + rest, fix)
  {
    var n := FirstLine(text);
    var line, more := text[..n], text[n..];
    var next := Consumed(FRESH, line, true, fix).state;
    BalancedBehind(NO_BRACKETS, text);
    OpeningLineConsumed(line, fix);
    if n == |text| {
      PlainTextsAreCutSafe(next, rest, fix);
      FirstLineSafe(FRESH, line, rest, fix);
      Whole(text);
    } else {
      RegionIsCutSafe(next, Scanned(NO_BRACKETS, line), more, rest, fix);
      FirstLineSafe(FRESH, line, more + rest, fix);
      SplitAt(text, n);
      Rejoin(line, more, rest);
    }
  }

  lemma ObjectIsCutSafe(pre: string, open: char, ps: seq<Part>, close: char, post: string, rest: string, fix: Fixer)
    requires IsObject(pre, open, ps, close, post) && PlainLines(rest)
    ensures CutSafe(FRESH, ObjectOf(pre, open, ps, close, post) + rest, fix)
  {
    var s := ObjectOf(pre, open, ps, close, post);
    ObjectIsLined(pre, open, ps, close, post);
    ObjectBalances(pre, open, ps, close, post);
    forall k | 0 < k < |s| && s[k - 1] == '\n' ensures Scanned(NO_BRACKETS, s[..k]).depth > 0 {
      ObjectIsOpen(pre, open, ps, close, post, k);
    }
    ObjectIsIndented(pre, open, TextOf(ps) + ([close] + (post + "\n")));
    assert Lines(s)[0] == s[..FirstLine(s)];
    WholeRegionIsCutSafe(s, rest, fix);
  }

  lemma ObjectIsIndented(pre: string, open: char, behind: string)
    requires Indentation(pre) && IsOpen(open)
    ensures var s := pre + ([open] + behind); PlainlyIndented(s[..FirstLine(s)])
  {
    var s := pre + ([open] + behind);
    assert s == (pre + [open]) + behind;
    FirstLineBehind(pre + [open], behind);
    var line := s[..FirstLine(s)];
    assert line[|pre|] == open;
    TrimIndentSplits(line);
  }

  /** However such a text is cut, the client receives the repaired region, and what it would
      receive for the rest alone. */
  lemma ObjectIsReceived(chunks: seq<string>, pre: string, open: char, ps: seq<Part>, close: char, post: string,
                         rest: string, fix: Fixer)
    requires Honest(fix) && IsObject(pre, open, ps, close, post) && PlainLines(rest)
    requires Concat(chunks) == ObjectOf(pre, open, ps, close, post) + rest
    ensures Received(chunks, fix) == fix(ObjectOf(pre, open, ps, close, post)).text + Received([rest], fix)
    ensures ReceivedFixes(chunks, fix) == fix(ObjectOf(pre, open, ps, close, post)).count + ReceivedFixes([rest], fix)
  {
    ObjectIsCutSafe(pre, open, ps, close, post, rest, fix);
    StreamedIsRendered(chunks, fix);
    ObjectIsRepaired(pre, open, ps, close, post, rest, fix);
    RestIsRendered(rest, fix);
  }
}
