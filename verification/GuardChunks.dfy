/**
 When does the guard's output not depend on how the text is cut into chunks?
 The line decision for an incomplete line skips leading spaces and tabs, the one
 for a complete line skips every leading white space. The two disagree on a line
 indented with another white space in front of a fence or a bracket; apart from
 such lines every way of cutting a text leads to the same state and output.
 */
module GuardChunks {
  import opened Util
  import opened Text
  import opened LineFeed
  import opened GuardState

  /** A repair that counts no fix changes nothing. */
  ghost predicate Honest(fix: Fixer) {
    forall s :: fix(s).count == 0 ==> fix(s).text == s
  }

  /** A complete line that does more than pass when it is read in one piece. */
  predicate TakesEffect(line: string, inFence: bool, fix: Fixer) {
    var t := TrimSpace(line);
    HasPrefix(t, FENCE) ||
    (!inFence && StartsRawJSON(t) && (Scanned(NO_BRACKETS, line).depth > 0 || fix(line).count != 0))
  }

  /** A line whose start, indented with something else than spaces and tabs, would
      be released as prose if the line arrived in two pieces. */
  predicate Surprising(line: string, inFence: bool, fix: Fixer) {
    var t := TrimIndent(line);
    t != "" && IsSpace(t[0]) && TakesEffect(line, inFence, fix)
  }

  /** Whether a segment may be cut: it does not complete a surprising line. */
  predicate SafeHere(g: Guard, seg: string, complete: bool, fix: Fixer) {
    g.phase.AtLine? && complete ==> !Surprising(g.phase.line + seg, g.phase.inFence, fix)
  }

  // ----------------------------------------------------------- one line, two pieces

  lemma {:induction false} TrimIndentAppend(p: string, q: string)
    requires TrimIndent(p) != ""
    ensures TrimIndent(p + q) == TrimIndent(p) + q
  {
    if IsIndent(p[0]) {
      assert (p + q)[1..] == p[1..] + q;
      TrimIndentAppend(p[1..], q);
    }
  }

  lemma HasPrefixPointwise(s: string, p: string)
    ensures HasPrefix(s, p) <==> |p| <= |s| && forall k :: 0 <= k < |p| ==> s[k] == p[k]
  {
    if |p| <= |s| && forall k :: 0 <= k < |p| ==> s[k] == p[k] {
      assert s[..|p|] == p;
    } else if |p| <= |s| {
      var k :| 0 <= k < |p| && s[k] != p[k];
      assert s[..|p|][k] != p[k];
    }
  }

  lemma PrefixesOfFence(t: string, q: string)
    requires t != "" && !HasPrefix(FENCE, t) && !HasPrefix(t, FENCE)
    ensures !HasPrefix(FENCE, t + q) && !HasPrefix(t + q, FENCE)
  {
    HasPrefixPointwise(FENCE, t);
    HasPrefixPointwise(t, FENCE);
    HasPrefixPointwise(FENCE, t + q);
    HasPrefixPointwise(t + q, FENCE);
  }

  /** A rejected start stays rejected however the line goes on. */
  lemma RejectionIsStable(p: string, q: string, inFence: bool)
    requires !MightStartRegion(p, inFence)
    ensures !MightStartRegion(p + q, inFence)
    ensures TrimIndent(p) != "" && TrimIndent(p + q) == TrimIndent(p) + q
  {
    TrimIndentAppend(p, q);
    PrefixesOfFence(TrimIndent(p), q);
  }

  lemma {:induction false} TrimSpaceRightIsPrefix(s: string)
    ensures HasPrefix(s, TrimSpaceRight(s))
  {
    if s != "" && IsSpace(s[|s| - 1]) {
      TrimSpaceRightIsPrefix(s[..|s| - 1]);
      var t := TrimSpaceRight(s);
      assert s[..|t|] == s[..|s| - 1][..|t|];
    }
  }

  lemma PrefixOfPrefix(s: string, t: string, u: string)
    requires HasPrefix(s, t) && HasPrefix(t, u)
    ensures HasPrefix(s, u)
  {
    assert s[..|u|] == s[..|t|][..|u|];
  }

  /** The key fact: a line with a rejected start, unless it is surprising, would have
      passed unchanged had it been read in one piece. */
  lemma RejectedLinesPass(p: string, q: string, inFence: bool, fixes: nat, fix: Fixer)
    requires Honest(fix)
    requires !MightStartRegion(p, inFence) && !Surprising(p + q, inFence, fix)
    ensures StartOrPass(p + q, inFence, fixes, fix) == Step(Guard(AtLine("", inFence), fixes), p + q)
  {
    var line := p + q;
    RejectionIsStable(p, q, inFence);
    var u := TrimIndent(line);
    TrimIndentSplits(line);
    var t := TrimSpace(line);
    if IsSpace(u[0]) {
      if !inFence && StartsRawJSON(t) {
        assert fix(line).count == 0;
      }
    } else {
      var k := |line| - |u|;
      assert line[k] == u[0];
      TrimSpaceHead(line, k);
      assert t == TrimSpaceRight(u);
      TrimSpaceRightIsPrefix(u);
      if HasPrefix(t, FENCE) {
        PrefixOfPrefix(u, t, FENCE);
        assert false;
      }
    }
  }

  lemma ConsumedInTwo(g: Guard, p: string, q: string, complete: bool, fix: Fixer)
    requires Honest(fix)
    requires SafeHere(g, p + q, complete, fix)
    ensures var one := Consumed(g, p, false, fix);
            Consumed(g, p + q, complete, fix) == Then(one, Consumed(one.state, q, complete, fix))
  {
    match g.phase
    case InFenced(open, body, line) =>
      assert line + p + q == line + (p + q);
    case InRaw(region, b, line) =>
      assert line + p + q == line + (p + q);
    case Passing(_) =>
    case AtLine(line, inFence) =>
      assert (line + p) + q == line + (p + q);
      if !MightStartRegion(line + p, inFence) {
        if complete {
          RejectedLinesPass(line + p, q, inFence, g.fixes, fix);
        } else {
          RejectionIsStable(line + p, q, inFence);
        }
      }
  }

  // ------------------------------------------------------------- exactly when it holds

  /** Whether a segment may be cut without any difference. */
  function SafeSegment(fix: Fixer): (Guard, string, bool) -> bool {
    (g, seg, complete) => SafeHere(g, seg, complete, fix)
  }

  /** No line of the text is surprising where it is read. */
  predicate CutSafe(g: Guard, text: string, fix: Fixer) {
    SafeText(Consuming(fix), SafeSegment(fix), g, text)
  }

  /** After every prefix of the text, the guard's state and the text released so far do
      not depend on the chunks. */
  ghost predicate ChunkInvariant(text: string, fix: Fixer) {
    forall n: nat, chunks: seq<string> ::
      n <= |text| && Concat(chunks) == text[..n] ==>
        Streamed(Consuming(fix), FRESH, chunks) == Fed(Consuming(fix), FRESH, text[..n])
  }

  predicate AtLineStart(g: Guard) {
    match g.phase
    case AtLine(line, _) => line == ""
    case InFenced(_, _, line) => line == ""
    case InRaw(_, _, line) => line == ""
    case Passing(_) => false
  }

  /** A line that is held is judged, once complete, with the part that was held. */
  lemma HeldLineContinues(g: Guard, a: string, seg: string, complete: bool, fix: Fixer)
    requires SafeHere(g, a + seg, complete, fix)
    ensures SafeHere(Consumed(g, a, false, fix).state, seg, complete, fix)
  {
    if g.phase.AtLine? {
      assert (g.phase.line + a) + seg == g.phase.line + (a + seg);
    }
  }

  /** A surprising line, cut after the first character of its indentation that is
      neither a space nor a tab: its start is released as prose. */
  lemma SurprisingStartIsReleased(line: string, inFence: bool, fix: Fixer) returns (k: nat)
    requires Surprising(line, inFence, fix)
    ensures 0 < k < |line| && !MightStartRegion(line[..k], inFence)
  {
    var u := TrimIndent(line);
    TrimIndentSplits(line);
    k := |line| - |u| + 1;
    assert line[k - 1] == u[0];
    TrimSpaceLeftSkips(line, k);
    assert k == |line| ==> TrimSpace(line) == "";
    var p := line[..k];
    assert p[..k - 1] == line[..k - 1];
    TrimIndentOfBlanks(p, k - 1);
    BlankStartIsReleased(p, inFence);
  }

  lemma SurprisingLineSplits(g: Guard, line: string, fix: Fixer) returns (k: nat)
    requires Honest(fix)
    requires g.phase.AtLine? && g.phase.line == "" && IsComplete(line)
    requires Surprising(line, g.phase.inFence, fix)
    ensures 0 < k < |line|
    ensures var one := Consumed(g, line[..k], false, fix);
            Consumed(g, line, true, fix) != Then(one, Consumed(one.state, line[k..], true, fix))
  {
    k := SurprisingStartIsReleased(line, g.phase.inFence, fix);
    assert "" + line[..k] == line[..k] && "" + line == line;
    EffectShows(line, g.phase.inFence, g.fixes, fix);
  }

  lemma BlankStartIsReleased(p: string, inFence: bool)
    requires |TrimIndent(p)| == 1 && IsSpace(TrimIndent(p)[0])
    ensures !MightStartRegion(p, inFence)
  {
    HasPrefixPointwise(FENCE, TrimIndent(p));
  }

  lemma EffectShows(line: string, inFence: bool, fixes: nat, fix: Fixer)
    requires TakesEffect(line, inFence, fix)
    ensures StartOrPass(line, inFence, fixes, fix).state != Guard(AtLine("", inFence), fixes)
  {
  }

  lemma {:induction false} TrimIndentOfBlanks(p: string, k: nat)
    requires k == |p| - 1
    requires forall j :: 0 <= j < k ==> IsIndent(p[j])
    requires !IsIndent(p[k])
    ensures TrimIndent(p) == [p[k]]
  {
    if k > 0 {
      TrimIndentOfBlanks(p[1..], k - 1);
    }
  }

  lemma GuardSplits(fix: Fixer)
    requires Honest(fix)
    ensures SplitLaw(Consuming(fix), SafeSegment(fix))
  {
    forall g, p, q, complete | SafeHere(g, p + q, complete, fix)
      ensures Consumed(g, p + q, complete, fix) ==
              Then(Consumed(g, p, false, fix), Consumed(Consumed(g, p, false, fix).state, q, complete, fix))
      ensures SafeHere(Consumed(g, p, false, fix).state, q, complete, fix)
    {
      ConsumedInTwo(g, p, q, complete, fix);
      HeldLineContinues(g, p, q, complete, fix);
    }
  }

  /** The guard is chunk invariant on a text exactly when no line of it is surprising. */
  lemma ChunkInvarianceExactly(text: string, fix: Fixer)
    requires Honest(fix)
    ensures ChunkInvariant(text, fix) <==> CutSafe(FRESH, text, fix)
  {
    var use, safe := Consuming(fix), SafeSegment(fix);
    if CutSafe(FRESH, text, fix) {
      GuardSplits(fix);
      forall n: nat, chunks: seq<string> | n <= |text| && Concat(chunks) == text[..n]
        ensures Streamed(use, FRESH, chunks) == Fed(use, FRESH, text[..n])
      {
        assert text == text[..n] + text[n..];
        FedInTwo(use, safe, FRESH, text[..n], text[n..]);
        ChunksAgree(use, safe, FRESH, chunks);
      }
    } else {
      var n, chunks := UnsafeTextSplits(text, fix);
    }
  }

  lemma UnsafeTextSplits(text: string, fix: Fixer) returns (n: nat, chunks: seq<string>)
    requires Honest(fix)
    requires !CutSafe(FRESH, text, fix)
    ensures n <= |text| && Concat(chunks) == text[..n]
    ensures Streamed(Consuming(fix), FRESH, chunks) != Fed(Consuming(fix), FRESH, text[..n])
  {
    var use, safe := Consuming(fix), SafeSegment(fix);
    forall h, line | AtLineStart(h) && IsComplete(line) ensures AtLineStart(use(h, line, true).state) {
      LinesEndAtLineStart(h, line, fix);
    }
    forall h, line | AtLineStart(h) && IsComplete(line) && HasNoBreak(line[..|line| - 1]) && !safe(h, line, true)
      ensures exists k: nat :: 0 < k < |line| &&
                use(h, line, true) !=
                Then(use(h, line[..k], false), use(use(h, line[..k], false).state, line[k..], true))
    {
      assert h.phase.line + line == line;
      var k := SurprisingLineSplits(h, line, fix);
    }
    n, chunks := UnsafeTextsDiffer(use, safe, AtLineStart, FRESH, text);
  }

  /** There are such texts: a fence behind a no-break space. */
  lemma NoBreakSpaceBeforeFence(fix: Fixer)
    requires Honest(fix)
    ensures !CutSafe(FRESH, "\U{00A0}```\n", fix) && !ChunkInvariant("\U{00A0}```\n", fix)
  {
    var text := "\U{00A0}```\n";
    FirstLineUnique(text, 5);
    assert text[..5] == text && text[5..] == "";
    assert "" + text == text;
    assert TrimIndent(text) == text;
    TrimSpaceHead(text, 1);
    assert HasPrefix(TrimSpace(text), FENCE);
    assert Surprising(text, false, fix);
    ChunkInvarianceExactly(text, fix);
  }

  lemma LinesEndAtLineStart(g: Guard, line: string, fix: Fixer)
    requires AtLineStart(g) && IsComplete(line)
    ensures AtLineStart(Consumed(g, line, true, fix).state)
  {
  }

  /** The documented case: lines indented with spaces and tabs only, or blank. */
  predicate PlainlyIndented(line: string) {
    var t := TrimIndent(line);
    t == "" || !IsSpace(t[0]) || TrimSpace(line) == ""
  }

  lemma {:induction false} PlainTextsAreCutSafe(g: Guard, text: string, fix: Fixer)
    requires AtLineStart(g)
    requires forall k :: 0 <= k < |Lines(text)| ==> PlainlyIndented(Lines(text)[k])
    ensures CutSafe(g, text, fix)
    decreases |text|
  {
    if text != "" {
      var n := FirstLine(text);
      var line := text[..n];
      assert Lines(text)[0] == line && Lines(text)[1..] == Lines(text[n..]);
      assert g.phase.AtLine? ==> g.phase.line + line == line;
      if IsComplete(line) {
        LinesEndAtLineStart(g, line, fix);
        PlainTextsAreCutSafe(Consumed(g, line, true, fix).state, text[n..], fix);
      } else {
        FirstLineBreaks(text);
      }
    }
  }
}
