/** Character classes, trimming and line splitting, as Go's strings package does them. */
module Text {
  import opened Sequences
  import opened Util

  /** unicode.IsSpace. */
  predicate IsSpace(c: char) {
    c == '\t' || c == '\n' || c == '\U{000B}' || c == '\U{000C}' || c == '\r' || c == ' ' ||
    c == '\U{0085}' || c == '\U{00A0}' || c == '\U{1680}' || '\U{2000}' <= c <= '\U{200A}' ||
    c == '\U{2028}' || c == '\U{2029}' || c == '\U{202F}' || c == '\U{205F}' || c == '\U{3000}'
  }

  /** The blanks an indentation is normally made of. */
  predicate IsIndent(c: char) {
    c == ' ' || c == '\t'
  }

  /** strings.TrimLeft(s, " \t"). */
  function TrimIndent(s: string): (t: string)
    ensures |t| <= |s|
  {
    if s != "" && IsIndent(s[0]) then TrimIndent(s[1..]) else s
  }

  function TrimSpaceLeft(s: string): (t: string)
    ensures |t| <= |s|
  {
    if s != "" && IsSpace(s[0]) then TrimSpaceLeft(s[1..]) else s
  }

  function TrimSpaceRight(s: string): (t: string)
    ensures |t| <= |s|
  {
    if s != "" && IsSpace(s[|s| - 1]) then TrimSpaceRight(s[..|s| - 1]) else s
  }

  /** strings.TrimSpace. */
  function TrimSpace(s: string): string {
    TrimSpaceRight(TrimSpaceLeft(s))
  }

  lemma {:induction false} TrimIndentSplits(s: string)
    ensures var t := TrimIndent(s);
            && t == s[|s| - |t|..] && (t != "" ==> !IsIndent(t[0]))
            && forall k :: 0 <= k < |s| - |t| ==> IsIndent(s[k])
  {
    if s != "" && IsIndent(s[0]) {
      TrimIndentSplits(s[1..]);
      forall k | 0 <= k < |s| - |TrimIndent(s)| ensures IsIndent(s[k]) {
        if k > 0 {
          assert s[k] == s[1..][k - 1];
        }
      }
    }
  }

  lemma {:induction false} TrimSpaceLeftSkips(s: string, k: nat)
    requires k <= |s|
    requires forall j :: 0 <= j < k ==> IsSpace(s[j])
    ensures TrimSpaceLeft(s) == TrimSpaceLeft(s[k..])
  {
    if k > 0 {
      TrimSpaceLeftSkips(s[1..], k - 1);
      assert s[1..][k - 1..] == s[k..];
    } else {
      assert s[0..] == s;
    }
  }

  lemma {:induction false} TrimSpaceRightKeepsHead(s: string)
    requires s != "" && !IsSpace(s[0])
    ensures TrimSpaceRight(s) != "" && TrimSpaceRight(s)[0] == s[0]
  {
    if IsSpace(s[|s| - 1]) {
      TrimSpaceRightKeepsHead(s[..|s| - 1]);
    }
  }

  lemma {:induction false} TrimSpaceRightCons(c: char, s: string)
    requires !IsSpace(c)
    ensures TrimSpaceRight([c] + s) == [c] + TrimSpaceRight(s)
  {
    if s != "" && IsSpace(s[|s| - 1]) {
      assert ([c] + s)[..|s|] == [c] + s[..|s| - 1];
      TrimSpaceRightCons(c, s[..|s| - 1]);
    }
  }

  /** What stands behind blanks is trimmed on its right side only. */
  lemma TrimSpaceBehindBlanks(before: string, c: char, s: string)
    requires !IsSpace(c) && forall k :: 0 <= k < |before| ==> IsSpace(before[k])
    ensures TrimSpace(before + ([c] + s)) == [c] + TrimSpaceRight(s)
  {
    var all := before + ([c] + s);
    TrimSpaceLeftSkips(all, |before|);
    assert all[|before|..] == [c] + s;
    TrimSpaceRightCons(c, s);
  }

  /** Trimming keeps the first character that is not a space, wherever it stands. */
  lemma TrimSpaceHead(s: string, k: nat)
    requires k < |s| && !IsSpace(s[k])
    requires forall j :: 0 <= j < k ==> IsSpace(s[j])
    ensures TrimSpace(s) == TrimSpaceRight(s[k..])
    ensures TrimSpace(s) != "" && TrimSpace(s)[0] == s[k]
  {
    TrimSpaceLeftSkips(s, k);
    TrimSpaceRightKeepsHead(s[k..]);
  }

  predicate HasPrefix(s: string, p: string) {
    |p| <= |s| && s[..|p|] == p
  }

  predicate IsDigit(c: char) {
    '0' <= c <= '9'
  }

  /** The length of the longest prefix of `t` made of digits. */
  function DigitRun(t: string): (n: nat)
    ensures n <= |t|
  {
    if t == "" || !IsDigit(t[0]) then 0 else 1 + DigitRun(t[1..])
  }

  lemma {:induction false} DigitRunIsMaximal(t: string)
    ensures forall k :: 0 <= k < DigitRun(t) ==> IsDigit(t[k])
    ensures DigitRun(t) < |t| ==> !IsDigit(t[DigitRun(t)])
  {
    if t != "" && IsDigit(t[0]) {
      DigitRunIsMaximal(t[1..]);
      forall k | 0 <= k < DigitRun(t) ensures IsDigit(t[k]) {
        if k > 0 {
          assert t[k] == t[1..][k - 1];
        }
      }
    }
  }

  /** unicode.ToLower, as far as it gives ASCII letters: those of the Kelvin sign and of the
      dotted capital I are among them. */
  function Lowered(c: char): char {
    if 'A' <= c <= 'Z' then c + ' '
    else if c == '\U{212A}' then 'k'
    else if c == '\U{0130}' then 'i'
    else c
  }

  function ToLower(s: string): (t: string)
    ensures |t| == |s|
  {
    if s == "" then "" else [Lowered(s[0])] + ToLower(s[1..])
  }

  // -------------------------------------------------------------------- bytes

  /** How many bytes a character takes in UTF-8 (section 3 of RFC 3629). */
  function Utf8Size(c: char): (n: nat)
    ensures 1 <= n <= 4
  {
    if c < '\U{0080}' then 1 else if c < '\U{0800}' then 2 else if c < '\U{10000}' then 3 else 4
  }

  /** The length of a text as Go counts it. */
  function Bytes(s: string): nat {
    if s == "" then 0 else Utf8Size(s[0]) + Bytes(s[1..])
  }

  lemma {:induction false} BytesOfASCII(s: string)
    requires forall k :: 0 <= k < |s| ==> s[k] < '\U{0080}'
    ensures Bytes(s) == |s|
  {
    if s != "" {
      BytesOfASCII(s[1..]);
    }
  }

  // -------------------------------------------------------------------- lines

  /** The length of the first line of `s`, its line break included. */
  function FirstLine(s: string): (n: nat)
    requires s != ""
    ensures 0 < n <= |s|
  {
    if s[0] == '\n' || |s| == 1 then 1 else 1 + FirstLine(s[1..])
  }

  predicate IsComplete(line: string) {
    line != "" && line[|line| - 1] == '\n'
  }

  predicate HasNoBreak(s: string) {
    forall k :: 0 <= k < |s| ==> s[k] != '\n'
  }

  lemma {:induction false} FirstLineBreaks(s: string)
    requires s != ""
    ensures var n := FirstLine(s);
            HasNoBreak(s[..n - 1]) && (s[n - 1] == '\n' || n == |s|)
  {
    if s[0] != '\n' && |s| > 1 {
      FirstLineBreaks(s[1..]);
      var n := FirstLine(s);
      assert s[..n - 1] == [s[0]] + s[1..][..n - 2];
    }
  }

  lemma {:induction false} FirstLineUnique(s: string, n: nat)
    requires 0 < n <= |s|
    requires HasNoBreak(s[..n - 1]) && (s[n - 1] == '\n' || n == |s|)
    ensures FirstLine(s) == n
  {
    if n > 1 {
      assert s[..n - 1][0] == s[0];
      assert s[1..][..n - 2] == s[..n - 1][1..];
      FirstLineUnique(s[1..], n - 1);
    }
  }

  /** The lines of a text, each with its line break; only the last may lack one. */
  function Lines(s: string): seq<string> {
    if s == "" then [] else [s[..FirstLine(s)]] + Lines(s[FirstLine(s)..])
  }

  lemma {:induction false} LinesConcat(s: string)
    ensures Concat(Lines(s)) == s
  {
    if s != "" {
      var n := FirstLine(s);
      LinesConcat(s[n..]);
      Cons(s[..n], Lines(s[n..]));
      SplitAt(s, n);
    }
  }

  // ------------------------------------------------------------------ strings of JSON

  /** A character of a JSON string, as it stands or behind a backslash. */
  datatype StringChar = Bare(c: char) | Escaped(c: char)

  predicate IsString(chars: seq<StringChar>) {
    forall k :: 0 <= k < |chars| ==> chars[k].Bare? ==> chars[k].c != '"' && chars[k].c != '\\'
  }

  function InQuotes(chars: seq<StringChar>): string {
    if chars == [] then "" else
    (match chars[0] case Bare(c) => [c] case Escaped(c) => ['\\', c]) + InQuotes(chars[1..])
  }
}
