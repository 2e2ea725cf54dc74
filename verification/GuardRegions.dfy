/**
 Which texts the guard repairs, line for line as a reader sees them: fenced blocks of the
 four JSON words, bare objects and arrays, and nothing else.
 */
module GuardRegions {
  import opened Util
  import opened Sequences
  import opened Text
  import opened LineFeed
  import opened GuardState
  import opened GuardChunks
  import opened GuardRender

  // ------------------------------------------------------------------- blanks and words

  /** Blanks within a line. */
  predicate Blanks(s: string) {
    forall k :: 0 <= k < |s| ==> s[k] == ' ' || s[k] == '\t' || s[k] == '\r'
  }

  /** The indentation of a line. */
  predicate Indentation(s: string) {
    forall k :: 0 <= k < |s| ==> s[k] == ' ' || s[k] == '\t'
  }

  /** The small letter or its capital. */
  predicate SameLetter(c: char, small: char) {
    c == small || ('a' <= small <= 'z' && c as int + 32 == small as int)
  }

  /** The word in any case. */
  predicate AnyCase(w: string, word: string) {
    |w| == |word| && forall k :: 0 <= k < |w| ==> SameLetter(w[k], word[k])
  }

  predicate IsJSONWord(w: string) {
    w == "" || AnyCase(w, "json") || AnyCase(w, "jsonc") || AnyCase(w, "json5")
  }

  /** A word as it may stand behind a fence: on one line, without blanks at its ends. */
  predicate IsTag(w: string) {
    HasNoBreak(w) && (w == "" || (!IsSpace(w[0]) && !IsSpace(w[|w| - 1])))
  }

  /** A line that begins with a fence. */
  function FenceOf(pre: string, mid: string, w: string, post: string): string {
    pre + ("```" + (mid + (w + (post + "\n"))))
  }

  lemma {:induction false} TrimBehind(w: string, blanks: string)
    requires forall k :: 0 <= k < |blanks| ==> IsSpace(blanks[k])
    requires w == "" || !IsSpace(w[|w| - 1])
    ensures TrimSpaceRight(w + blanks) == w
    decreases |blanks|
  {
    if blanks == "" {
      Nothing(w);
    } else {
      var n := |blanks| - 1;
      assert (w + blanks)[..|w + blanks| - 1] == w + blanks[..n];
      TrimBehind(w, blanks[..n]);
    }
  }

  lemma {:induction false} TrimFront(blanks: string, w: string)
    requires forall k :: 0 <= k < |blanks| ==> IsSpace(blanks[k])
    requires w == "" || !IsSpace(w[0])
    ensures TrimSpaceLeft(blanks + w) == w
  {
    TrimSpaceLeftSkips(blanks + w, |blanks|);
    Parts(blanks, w);
  }

  lemma TrimmedBareFence(mid: string, post: string)
    requires Blanks(mid) && Blanks(post)
    ensures TrimSpaceRight("```" + (mid + (post + "\n"))) == FENCE && TrimSpace(FENCE[3..]) == ""
  {
    TrimBehind("```", mid + (post + "\n"));
    assert FENCE[3..] == "";
    assert TrimSpace("") == "";
  }

  lemma TrimmedTaggedFence(mid: string, w: string, post: string)
    requires Blanks(mid) && Blanks(post) && IsTag(w) && w != ""
    ensures var t := "```" + (mid + w);
            && TrimSpaceRight("```" + (mid + (w + (post + "\n")))) == t
            && HasPrefix(t, FENCE) && TrimSpace(t[3..]) == w && t != FENCE
  {
    var v := "```" + (mid + w);
    assert "```" + (mid + (w + (post + "\n"))) == v + (post + "\n");
    TrimBehind(v, post + "\n");
    assert v[3..] == mid + w && v[..3] == "```";
    TrimFront(mid, w);
    TrimBehind(w, "");
    Nothing(w);
  }

  /** What is left of a fence line when it is trimmed, and of the word behind the fence. */
  lemma TrimmedFence(pre: string, mid: string, w: string, post: string)
    requires Indentation(pre) && Blanks(mid) && Blanks(post) && IsTag(w)
    ensures var t := TrimSpace(FenceOf(pre, mid, w, post));
            HasPrefix(t, FENCE) && TrimSpace(t[3..]) == w && (t == FENCE <==> w == "")
  {
    TrimFront(pre, "```" + (mid + (w + (post + "\n"))));
    if w == "" {
      Nothing(post + "\n");
      TrimmedBareFence(mid, post);
    } else {
      TrimmedTaggedFence(mid, w, post);
    }
  }

  lemma {:induction false} LowerIsAnyCase(w: string, word: string)
    requires forall k :: 0 <= k < |word| ==> word[k] in "jsonc5"
    ensures ToLower(w) == word <==> AnyCase(w, word)
    decreases |w|
  {
    if |w| == |word| && w != "" {
      LowerIsAnyCase(w[1..], word[1..]);
      assert ToLower(w) == [Lowered(w[0])] + ToLower(w[1..]);
      assert word == [word[0]] + word[1..];
      assert Lowered(w[0]) == word[0] <==> SameLetter(w[0], word[0]);
      if AnyCase(w[1..], word[1..]) && SameLetter(w[0], word[0]) {
        forall k | 0 <= k < |w| ensures SameLetter(w[k], word[k]) {
          if k > 0 {
            assert SameLetter(w[1..][k - 1], word[1..][k - 1]);
          }
        }
      }
      if AnyCase(w, word) {
        forall k | 0 <= k < |w[1..]| ensures SameLetter(w[1..][k], word[1..][k]) {
          assert SameLetter(w[k + 1], word[k + 1]);
        }
        assert SameLetter(w[0], word[0]);
      }
    }
  }

  lemma FenceOpens(pre: string, mid: string, w: string, post: string)
    requires Indentation(pre) && Blanks(mid) && Blanks(post) && IsTag(w)
    ensures var t := TrimSpace(FenceOf(pre, mid, w, post));
            HasPrefix(t, FENCE) && (OpensJSON(t) <==> IsJSONWord(w))
  {
    TrimmedFence(pre, mid, w, post);
    LowerIsAnyCase(w, "json");
    LowerIsAnyCase(w, "jsonc");
    LowerIsAnyCase(w, "json5");
  }

  lemma FenceIsLine(pre: string, mid: string, w: string, post: string)
    requires Indentation(pre) && Blanks(mid) && Blanks(post) && IsTag(w)
    ensures IsOneLine(FenceOf(pre, mid, w, post)) && PlainlyIndented(FenceOf(pre, mid, w, post))
  {
    var line := FenceOf(pre, mid, w, post);
    var n := |line| - 1;
    assert line[..n] == pre + ("```" + (mid + (w + post)));
    assert line[|pre|] == '`';
    TrimIndentSplits(line);
  }

  /** One line, with its break. */
  predicate IsOneLine(line: string) {
    IsComplete(line) && HasNoBreak(line[..|line| - 1])
  }

  // --------------------------------------------------------------------------- lines

  lemma {:induction false} LinesOfBoth(a: string, b: string)
    requires a == "" || IsComplete(a)
    ensures Lines(a + b) == Lines(a) + Lines(b)
    decreases |a|
  {
    if a == "" {
      Nothing(b);
      Nothing(Lines(b));
    } else {
      var n := FirstLine(a);
      FirstLineBreaks(a);
      FirstLineOfAppend(a, b);
      assert (a + b)[..n] == a[..n] && (a + b)[n..] == a[n..] + b;
      assert n < |a| ==> a[n..][|a[n..]| - 1] == a[|a| - 1];
      LinesOfBoth(a[n..], b);
      Rejoin([a[..n]], Lines(a[n..]), Lines(b));
    }
  }

  lemma LinesOfOne(line: string)
    requires IsOneLine(line)
    ensures Lines(line) == [line]
  {
    FirstLineUnique(line, |line|);
    Whole(line);
  }

  // ------------------------------------------------------------------ fenced JSON

  /** Complete lines, none of which is a bare fence. */
  predicate IsFencedBody(body: string) {
    && (body == "" || IsComplete(body))
    && forall k :: 0 <= k < |Lines(body)| ==> TrimSpace(Lines(body)[k]) != "```"
  }

  /** The first character that is no blank is an opening bracket. */
  predicate BeginsWithBracket(body: string) {
    var t := TrimSpace(body);
    t != "" && (t[0] == '{' || t[0] == '[')
  }

  lemma {:induction false} ClosingBehind(body: seq<string>, close: string, more: seq<string>)
    requires forall k :: 0 <= k < |body| ==> TrimSpace(body[k]) != FENCE
    requires IsComplete(close) && TrimSpace(close) == FENCE
    ensures ClosingLine(body + ([close] + more)) == |body|
    decreases |body|
  {
    if body == [] {
      Nothing([close] + more);
    } else {
      assert (body + ([close] + more))[1..] == body[1..] + ([close] + more);
      ClosingBehind(body[1..], close, more);
    }
  }

  lemma FencedLines(fence: string, body: string, close: string, rest: string)
    requires IsOneLine(fence) && IsFencedBody(body) && IsOneLine(close)
    ensures Lines(fence + (body + (close + rest))) == [fence] + (Lines(body) + ([close] + Lines(rest)))
  {
    LinesOfOne(fence);
    LinesOfOne(close);
    LinesOfBoth(fence, body + (close + rest));
    LinesOfBoth(body, close + rest);
    LinesOfBoth(close, rest);
  }

  /** A line that opens a JSON block, and one that closes it. */
  predicate IsOpening(fence: string) {
    IsOneLine(fence) && PlainlyIndented(fence) && HasPrefix(TrimSpace(fence), FENCE) && OpensJSON(TrimSpace(fence))
  }

  predicate IsClosing(close: string) {
    IsOneLine(close) && TrimSpace(close) == FENCE
  }

  /** What is made of the body. */
  function Settled(body: string, fix: Fixer): Fix {
    if BeginsWithBracket(body) then fix(body) else Fix(body, 0)
  }

  lemma FencedRendering(fence: string, body: string, close: string, rest: string, fix: Fixer)
    requires IsOpening(fence) && IsFencedBody(body) && IsClosing(close)
    ensures var whole := Settled(body, fix);
            Rendered(fence + (body + (close + rest)), fix) ==
            Prepend(fence + whole.text + close, whole.count, Rendered(rest, fix))
  {
    var b, more := Lines(body), Lines(rest);
    var tail := b + ([close] + more);
    FencedLines(fence, body, close, rest);
    Cons(fence, tail);
    FenceSegment([fence] + tail, fix);
    ClosingBehind(b, close, more);
    Parts(b, [close] + more);
    assert tail[|b|] == close && tail[|b| + 1..] == more;
    LinesConcat(body);
    Nothing(body);
    BodyIsSettled(body, fix);
  }

  lemma BodyIsSettled(body: string, fix: Fixer)
    ensures Body(body, fix) == Settled(body, fix)
  {
    var t := TrimSpace(body);
    if t != "" {
      assert t[..1] == [t[0]];
    }
  }

  lemma OpenRendering(fence: string, body: string, fix: Fixer)
    requires IsOpening(fence) && forall k :: 0 <= k < |Lines(body)| ==> TrimSpace(Lines(body)[k]) != FENCE
    ensures var whole := Settled(body, fix); Rendered(fence + body, fix) == Fix(fence + whole.text, whole.count)
  {
    LinesOfOne(fence);
    LinesOfBoth(fence, body);
    Cons(fence, Lines(body));
    FenceSegment([fence] + Lines(body), fix);
    NothingCloses(Lines(body));
    Whole(Lines(body));
    LinesConcat(body);
    Nothing(body);
    BodyIsSettled(body, fix);
  }

  lemma {:induction false} NothingCloses(lines: seq<string>)
    requires forall k :: 0 <= k < |lines| ==> TrimSpace(lines[k]) != FENCE
    ensures ClosingLine(lines) == |lines|
  {
    if lines != [] {
      NothingCloses(lines[1..]);
    }
  }

  /** A fence line of one of the JSON words, and one that closes it. */
  predicate OpensBlock(pre: string, mid: string, w: string, post: string) {
    && Indentation(pre) && Blanks(mid) && Blanks(post)
    && (w == "" || AnyCase(w, "json") || AnyCase(w, "jsonc") || AnyCase(w, "json5"))
  }

  lemma OpeningFence(pre: string, mid: string, w: string, post: string)
    requires OpensBlock(pre, mid, w, post)
    ensures IsOpening(FenceOf(pre, mid, w, post))
  {
    FenceOpens(pre, mid, w, post);
    FenceIsLine(pre, mid, w, post);
  }

  lemma ClosingFence(pre: string, post: string)
    requires Indentation(pre) && Blanks(post)
    ensures IsClosing(FenceOf(pre, "", "", post))
  {
    TrimmedFence(pre, "", "", post);
    FenceIsLine(pre, "", "", post);
  }

  /** A fenced block of JSON: whatever the case of its word and the blanks around it, a body
      that begins with a bracket is repaired and any other stands, and the rendering of the
      rest follows. */
  lemma JSONFenceIsRepaired(pre: string, mid: string, w: string, post: string, body: string,
                            pre': string, post': string, rest: string, fix: Fixer)
    requires OpensBlock(pre, mid, w, post) && IsFencedBody(body) && Indentation(pre') && Blanks(post')
    ensures var fence, close := FenceOf(pre, mid, w, post), FenceOf(pre', "", "", post');
            var whole := if BeginsWithBracket(body) then fix(body) else Fix(body, 0);
            Rendered(fence + (body + (close + rest)), fix) ==
            Prepend(fence + whole.text + close, whole.count, Rendered(rest, fix))
  {
    OpeningFence(pre, mid, w, post);
    ClosingFence(pre', post');
    FencedRendering(FenceOf(pre, mid, w, post), body, FenceOf(pre', "", "", post'), rest, fix);
  }

  /** So it is when the text ends before the closing fence. */
  lemma OpenFenceIsRepaired(pre: string, mid: string, w: string, post: string, body: string, fix: Fixer)
    requires OpensBlock(pre, mid, w, post)
    requires forall k :: 0 <= k < |Lines(body)| ==> TrimSpace(Lines(body)[k]) != "```"
    ensures var fence := FenceOf(pre, mid, w, post);
            var whole := if BeginsWithBracket(body) then fix(body) else Fix(body, 0);
            Rendered(fence + body, fix) == Fix(fence + whole.text, whole.count)
  {
    OpeningFence(pre, mid, w, post);
    OpenRendering(FenceOf(pre, mid, w, post), body, fix);
  }

  // ------------------------------------------------------------------ however it is cut

  predicate PlainLines(text: string) {
    forall k :: 0 <= k < |Lines(text)| ==> PlainlyIndented(Lines(text)[k])
  }

  predicate InBody(g: Guard) {
    g.phase.InFenced? && g.phase.line == ""
  }

  lemma FirstLineSafe(g: Guard, line: string, rest: string, fix: Fixer)
    requires IsOneLine(line) && SafeHere(g, line, true, fix)
    requires CutSafe(Consumed(g, line, true, fix).state, rest, fix)
    ensures CutSafe(g, line + rest, fix)
  {
    LineIsFirst(line, rest);
  }

  lemma BodyLineConsumed(g: Guard, line: string, fix: Fixer)
    requires InBody(g) && IsOneLine(line)
    ensures var next := Consumed(g, line, true, fix).state;
            if TrimSpace(line) == FENCE then next.phase == AtLine("", false) else InBody(next)
  {
    Nothing(line);
  }

  /** Inside a fenced region every line may be cut. */
  lemma {:induction false} FencedIsCutSafe(g: Guard, body: string, close: string, rest: string, fix: Fixer)
    requires InBody(g) && IsFencedBody(body) && IsClosing(close) && PlainLines(rest)
    ensures CutSafe(g, body + (close + rest), fix)
    decreases |body|
  {
    if body == "" {
      Nothing(close + rest);
      BodyLineConsumed(g, close, fix);
      PlainTextsAreCutSafe(Consumed(g, close, true, fix).state, rest, fix);
      FirstLineSafe(g, close, rest, fix);
    } else {
      var n := FirstLine(body);
      var line, more := body[..n], body[n..];
      BodyBehind(body);
      BodyLineConsumed(g, line, fix);
      FencedIsCutSafe(Consumed(g, line, true, fix).state, more, close, rest, fix);
      FirstLineSafe(g, line, more + (close + rest), fix);
      SplitAt(body, n);
      Rejoin(line, more, close + rest);
    }
  }

  lemma LineIsFirst(line: string, rest: string)
    requires IsOneLine(line)
    ensures FirstLine(line + rest) == |line| && (line + rest)[..|line|] == line && (line + rest)[|line|..] == rest
  {
    Parts(line, rest);
    assert (line + rest)[..|line| - 1] == line[..|line| - 1];
    FirstLineUnique(line + rest, |line|);
  }

  lemma BodyBehind(body: string)
    requires body != "" && IsFencedBody(body)
    ensures var n := FirstLine(body);
            IsOneLine(body[..n]) && TrimSpace(body[..n]) != FENCE && IsFencedBody(body[n..])
  {
    var n := FirstLine(body);
    FirstLineBreaks(body);
    assert Lines(body)[0] == body[..n];
    forall k | 0 <= k < |Lines(body[n..])| ensures TrimSpace(Lines(body[n..])[k]) != FENCE {
      assert Lines(body)[k + 1] == Lines(body[n..])[k];
    }
    if n < |body| {
      assert body[n..][|body[n..]| - 1] == body[|body| - 1];
    }
  }

  lemma FenceIsCutSafe(fence: string, body: string, close: string, rest: string, fix: Fixer)
    requires IsOpening(fence) && IsFencedBody(body) && IsClosing(close) && PlainLines(rest)
    ensures CutSafe(FRESH, fence + (body + (close + rest)), fix)
  {
    Nothing(fence);
    FencedIsCutSafe(Guard(InFenced(fence, "", ""), 0), body, close, rest, fix);
    FirstLineSafe(FRESH, fence, body + (close + rest), fix);
  }

  lemma RestIsRendered(rest: string, fix: Fixer)
    requires Honest(fix) && PlainLines(rest)
    ensures Received([rest], fix) == Rendered(rest, fix).text && ReceivedFixes([rest], fix) == Rendered(rest, fix).count
  {
    assert Concat([rest]) == rest + "" == rest;
    PlainTextsAreCutSafe(FRESH, rest, fix);
    StreamedIsRendered([rest], fix);
  }

  /** However such a text is cut, the client receives the fence as it stands, the repaired
      body, the closing fence, and what it would receive for the rest alone. */
  lemma JSONFenceIsReceived(chunks: seq<string>, pre: string, mid: string, w: string, post: string, body: string,
                            pre': string, post': string, rest: string, fix: Fixer)
    requires Honest(fix) && OpensBlock(pre, mid, w, post) && Indentation(pre') && Blanks(post')
    requires IsFencedBody(body) && BeginsWithBracket(body) && PlainLines(rest)
    requires Concat(chunks) == FenceOf(pre, mid, w, post) + (body + (FenceOf(pre', "", "", post') + rest))
    ensures Received(chunks, fix) ==
            FenceOf(pre, mid, w, post) + fix(body).text + FenceOf(pre', "", "", post') + Received([rest], fix)
    ensures ReceivedFixes(chunks, fix) == fix(body).count + ReceivedFixes([rest], fix)
  {
    OpeningFence(pre, mid, w, post);
    ClosingFence(pre', post');
    FenceIsCutSafe(FenceOf(pre, mid, w, post), body, FenceOf(pre', "", "", post'), rest, fix);
    StreamedIsRendered(chunks, fix);
    JSONFenceIsRepaired(pre, mid, w, post, body, pre', post', rest, fix);
    RestIsRendered(rest, fix);
  }

  // ---------------------------------------------------------------------- other lines

  /** A line that stands as it is. */
  lemma LinePasses(line: string, more: seq<string>, inFence: bool, inFence': bool, fix: Fixer)
    requires IsComplete(line)
    requires var t := TrimSpace(line);
             if HasPrefix(t, FENCE) then (inFence || !OpensJSON(t)) && inFence' == !inFence
             else (inFence || !StartsRawJSON(t)) && inFence' == inFence
    ensures RenderAll(Segments([line] + more, inFence), fix) ==
            Prepend(line, 0, RenderAll(Segments(more, inFence'), fix))
  {
    var lines := [line] + more;
    Cons(line, more);
    assert Segments(lines, inFence) == [Prose(line)] + Segments(more, inFence');
    Cons(Prose(line), Segments(more, inFence'));
  }

  /** Complete lines, none of which begins with a fence. */
  predicate HasNoFence(body: string) {
    && (body == "" || IsComplete(body))
    && forall k :: 0 <= k < |Lines(body)| ==> !HasPrefix(TrimSpace(Lines(body)[k]), "```")
  }

  lemma {:induction false} BodyPasses(body: seq<string>, more: seq<string>, fix: Fixer)
    requires forall k :: 0 <= k < |body| ==> IsComplete(body[k]) && !HasPrefix(TrimSpace(body[k]), FENCE)
    ensures RenderAll(Segments(body + more, true), fix) ==
            Prepend(Concat(body), 0, RenderAll(Segments(more, true), fix))
    decreases |body|
  {
    var rest := RenderAll(Segments(more, true), fix);
    if body == [] {
      Nothing(more);
      Nothing(rest.text);
    } else {
      BodyPasses(body[1..], more, fix);
      LinePasses(body[0], body[1..] + more, true, true, fix);
      HeadTail(body);
      Rejoin([body[0]], body[1..], more);
      Rejoin(body[0], Concat(body[1..]), rest.text);
    }
  }

  lemma OtherFencePasses(fence: string, body: string, close: string, rest: string, fix: Fixer)
    requires IsOneLine(fence) && HasPrefix(TrimSpace(fence), FENCE) && !OpensJSON(TrimSpace(fence))
    requires HasNoFence(body) && IsOneLine(close) && HasPrefix(TrimSpace(close), FENCE)
    ensures Rendered(fence + (body + (close + rest)), fix) == Prepend(fence + (body + close), 0, Rendered(rest, fix))
  {
    var b, more := Lines(body), Lines(rest);
    LinesOfOne(fence);
    LinesOfOne(close);
    LinesOfBoth(fence, body + (close + rest));
    LinesOfBoth(body, close + rest);
    LinesOfBoth(close, rest);
    LinePasses(fence, b + ([close] + more), false, true, fix);
    LinesComplete(body);
    BodyPasses(b, [close] + more, fix);
    LinesConcat(body);
    LinePasses(close, more, true, false, fix);
    Rejoin(body, close, Rendered(rest, fix).text);
    Rejoin(fence, body + close, Rendered(rest, fix).text);
  }

  lemma {:induction false} LinesComplete(body: string)
    requires body == "" || IsComplete(body)
    ensures forall k :: 0 <= k < |Lines(body)| ==> IsComplete(Lines(body)[k])
    decreases |body|
  {
    if body != "" {
      var n := FirstLine(body);
      FirstLineBreaks(body);
      if n < |body| {
        assert body[n..][|body[n..]| - 1] == body[|body| - 1];
      }
      LinesComplete(body[n..]);
      assert body[..n][n - 1] == '\n';
    }
  }

  /** A fence with any other word is an ordinary code block, which is passed as it stands, up
      to the next fence. */
  lemma OtherFenceIsPassed(pre: string, mid: string, w: string, post: string, body: string, close: string,
                           rest: string, fix: Fixer)
    requires Indentation(pre) && Blanks(mid) && Blanks(post) && IsTag(w)
    requires w != "" && !AnyCase(w, "json") && !AnyCase(w, "jsonc") && !AnyCase(w, "json5")
    requires HasNoFence(body) && IsOneLine(close) && HasPrefix(TrimSpace(close), "```")
    ensures var fence := FenceOf(pre, mid, w, post);
            Rendered(fence + (body + (close + rest)), fix) == Prepend(fence + (body + close), 0, Rendered(rest, fix))
  {
    FenceOpens(pre, mid, w, post);
    FenceIsLine(pre, mid, w, post);
    OtherFencePasses(FenceOf(pre, mid, w, post), body, close, rest, fix);
  }

  /** A line that begins neither with a fence nor with a brace, nor with a bracket that is
      followed by nothing, a bracket, a brace or a quote. */
  predicate IsProse(line: string) {
    var t := TrimSpace(line);
    t == "" || (t[0] != '{' && t[0] != '[' && !HasPrefix(t, "```")) ||
    (t[0] == '[' && exists k :: 1 <= k < |t| && !IsSpace(t[k]) && t[k] != '{' && t[k] != '[' && t[k] != '"' &&
                                forall j :: 1 <= j < k ==> IsSpace(t[j]))
  }

  lemma ProseStartsNothing(t: string, k: nat)
    requires 1 <= k < |t| && t[0] == '[' && !IsSpace(t[k]) && t[k] != '{' && t[k] != '[' && t[k] != '"'
    requires forall j :: 1 <= j < k ==> IsSpace(t[j])
    ensures !StartsRawJSON(t)
  {
    assert t[1..][k - 1] == t[k];
    TrimSpaceHead(t[1..], k - 1);
  }

  /** Prose is passed as it stands. */
  lemma ProseIsPassed(line: string, rest: string, fix: Fixer)
    requires IsOneLine(line) && IsProse(line)
    ensures Rendered(line + rest, fix) == Prepend(line, 0, Rendered(rest, fix))
  {
    var t := TrimSpace(line);
    if t != "" && t[0] == '[' {
      var k :| 1 <= k < |t| && !IsSpace(t[k]) && t[k] != '{' && t[k] != '[' && t[k] != '"' &&
               forall j :: 1 <= j < k ==> IsSpace(t[j]);
      ProseStartsNothing(t, k);
      assert !HasPrefix(t, FENCE);
    }
    LinesOfOne(line);
    LinesOfBoth(line, rest);
    LinePasses(line, Lines(rest), false, false, fix);
  }
}
