/**
 The guard as a function of the whole text. The text is cut, line by line, into
 prose and JSON regions; the output is the prose as it stands and every region
 repaired. The streaming guard is proved equal to it.
 */
module GuardRender {
  import opened Util
  import opened Sequences
  import opened Text
  import opened LineFeed
  import opened JsonRepair
  import opened GuardState
  import opened GuardChunks
  import opened TextGuard

  datatype Segment =
    | Prose(line: string)
    | FencedRegion(open: string, body: string, close: string)
    | RawRegion(text: string)

  /** How many lines come before the line that closes a fence. */
  function ClosingLine(lines: seq<string>): (n: nat)
    ensures n <= |lines|
  {
    if lines == [] then 0
    else if IsComplete(lines[0]) && TrimSpace(lines[0]) == FENCE then 0
    else 1 + ClosingLine(lines[1..])
  }

  /** How many lines it takes for the brackets to balance. */
  function BalancedLines(lines: seq<string>, b: Brackets): (n: nat)
    ensures n <= |lines| && (lines != [] ==> n > 0)
  {
    if lines == [] then 0
    else if Scanned(b, lines[0]).depth <= 0 && IsComplete(lines[0]) then 1
    else 1 + BalancedLines(lines[1..], Scanned(b, lines[0]))
  }

  function Segments(lines: seq<string>, inFence: bool): seq<Segment>
    decreases |lines|
  {
    if lines == [] then []
    else if !IsComplete(lines[0]) then [Prose(lines[0])] + Segments(lines[1..], inFence)
    else
      var t := TrimSpace(lines[0]);
      if HasPrefix(t, FENCE) then
        if !inFence && OpensJSON(t) then
          var rest := lines[1..];
          var n := ClosingLine(rest);
          if n < |rest| then
            [FencedRegion(lines[0], Concat(rest[..n]), rest[n])] + Segments(rest[n + 1..], false)
          else [FencedRegion(lines[0], Concat(rest), "")]
        else [Prose(lines[0])] + Segments(lines[1..], !inFence)
      else if !inFence && StartsRawJSON(t) then
        var n := BalancedLines(lines, NO_BRACKETS);
        [RawRegion(Concat(lines[..n]))] + Segments(lines[n..], false)
      else [Prose(lines[0])] + Segments(lines[1..], inFence)
  }

  function Released(s: Segment, fix: Fixer): string {
    match s
    case Prose(line) => line
    case FencedRegion(open, body, close) => open + Body(body, fix).text + close
    case RawRegion(text) => fix(text).text
  }

  function Rewritten(s: Segment, fix: Fixer): nat {
    match s
    case Prose(_) => 0
    case FencedRegion(_, body, _) => Body(body, fix).count
    case RawRegion(text) => fix(text).count
  }

  function Source(s: Segment): string {
    match s
    case Prose(line) => line
    case FencedRegion(open, body, close) => open + body + close
    case RawRegion(text) => text
  }

  function RenderAll(ss: seq<Segment>, fix: Fixer): Fix {
    if ss == [] then Fix("", 0) else
    var rest := RenderAll(ss[1..], fix);
    Fix(Released(ss[0], fix) + rest.text, Rewritten(ss[0], fix) + rest.count)
  }

  /** The output for a whole text, and how many values are rewritten in it. */
  function Rendered(text: string, fix: Fixer): Fix {
    RenderAll(Segments(Lines(text), false), fix)
  }

  // --------------------------------------------------------- the guard, line by line

  function FedLines(g: Guard, lines: seq<string>, fix: Fixer): Step<Guard>
    decreases |lines|
  {
    if lines == [] then Step(g, "") else
    var first := Consumed(g, lines[0], IsComplete(lines[0]), fix);
    Then(first, FedLines(first.state, lines[1..], fix))
  }

  lemma {:induction false} FedIsFedLines(g: Guard, text: string, fix: Fixer)
    ensures Fed(Consuming(fix), g, text) == FedLines(g, Lines(text), fix)
    decreases |text|
  {
    if text != "" {
      var n := FirstLine(text);
      var use := Consuming(fix);
      var first := use(g, text[..n], IsComplete(text[..n]));
      FedIsFedLines(first.state, text[n..], fix);
      assert Lines(text)[1..] == Lines(text[n..]);
      assert FedLines(g, Lines(text), fix) == Then(first, FedLines(first.state, Lines(text[n..]), fix));
    }
  }

  /** All the lines, and the flush that follows. */
  function Finished(g: Guard, lines: seq<string>, fix: Fixer): Step<Guard> {
    var fed := FedLines(g, lines, fix);
    Then(fed, Flushed(fed.state, fix))
  }

  lemma FinishedUnfolds(g: Guard, lines: seq<string>, fix: Fixer)
    requires lines != []
    ensures var first := Consumed(g, lines[0], IsComplete(lines[0]), fix);
            Finished(g, lines, fix) == Then(first, Finished(first.state, lines[1..], fix))
  {
    var first := Consumed(g, lines[0], IsComplete(lines[0]), fix);
    var rest := FedLines(first.state, lines[1..], fix);
    ThenAssociates(first, rest, Flushed(rest.state, fix));
  }

  /** Only the last line may lack its break. */
  predicate WellLined(lines: seq<string>) {
    forall k :: 0 <= k < |lines| - 1 ==> IsComplete(lines[k])
  }

  lemma {:induction false} LinesAreWellLined(text: string)
    ensures WellLined(Lines(text))
    decreases |text|
  {
    if text != "" {
      var n := FirstLine(text);
      LinesAreWellLined(text[n..]);
      FirstLineBreaks(text);
      var rest := Lines(text[n..]);
      forall k | 0 <= k < |Lines(text)| - 1 ensures IsComplete(Lines(text)[k]) {
        if k > 0 {
          assert Lines(text)[k] == rest[k - 1];
        } else {
          assert Lines(text)[0] == text[..n];
        }
      }
    }
  }

  /** `s` is what is released from a state with `fixes` rewritten values, up to the end. */
  ghost predicate Yields(s: Step<Guard>, fixes: nat, out: Fix) {
    s.out == out.text && s.state.fixes == fixes + out.count
  }

  function Prepend(text: string, count: nat, rest: Fix): Fix {
    Fix(text + rest.text, count + rest.count)
  }

  /** The output from inside a fenced region. */
  function FenceRendered(open: string, body: string, lines: seq<string>, fix: Fixer): Fix {
    var n := ClosingLine(lines);
    var whole := Body(body + Concat(lines[..n]), fix);
    if n < |lines| then
      Prepend(open + whole.text + lines[n], whole.count, RenderAll(Segments(lines[n + 1..], false), fix))
    else Fix(open + whole.text, whole.count)
  }

  /** The output from inside a raw region. */
  function RawRendered(region: string, b: Brackets, lines: seq<string>, fix: Fixer): Fix {
    var n := BalancedLines(lines, b);
    var whole := fix(region + Concat(lines[..n]));
    Prepend(whole.text, whole.count, RenderAll(Segments(lines[n..], false), fix))
  }

  lemma {:induction false} PassRenders(lines: seq<string>, inFence: bool, fixes: nat, fix: Fixer)
    requires WellLined(lines)
    ensures Yields(Finished(Guard(AtLine("", inFence), fixes), lines, fix), fixes,
            RenderAll(Segments(lines, inFence), fix))
    decreases |lines|, 2
  {
    if lines != [] {
      var line, rest := lines[0], lines[1..];
      assert "" + line == line;
      FinishedUnfolds(Guard(AtLine("", inFence), fixes), lines, fix);
      if !IsComplete(line) {
        assert rest == [];
      } else {
        LineRenders(lines, inFence, fixes, fix);
      }
    }
  }

  /** A complete line outside a region, and everything after it. */
  lemma {:induction false} LineRenders(lines: seq<string>, inFence: bool, fixes: nat, fix: Fixer)
    requires WellLined(lines) && lines != [] && IsComplete(lines[0])
    ensures var first := StartOrPass(lines[0], inFence, fixes, fix);
            Yields(Then(first, Finished(first.state, lines[1..], fix)), fixes, RenderAll(Segments(lines, inFence), fix))
    decreases |lines|, 1
  {
    var line, rest := lines[0], lines[1..];
    var t := TrimSpace(line);
    if HasPrefix(t, FENCE) {
      if !inFence && OpensJSON(t) {
        FencedRenders(line, "", rest, fixes, fix);
        FenceSegment(lines, fix);
      } else {
        PassRenders(rest, !inFence, fixes, fix);
      }
    } else if !inFence && StartsRawJSON(t) {
      RawLineRenders("", NO_BRACKETS, lines, fixes, fix);
      RawSegment(lines, fix);
      assert "" + line == line;
    } else {
      PassRenders(rest, inFence, fixes, fix);
    }
  }

  lemma FenceSegment(lines: seq<string>, fix: Fixer)
    requires lines != [] && IsComplete(lines[0])
    requires HasPrefix(TrimSpace(lines[0]), FENCE) && OpensJSON(TrimSpace(lines[0]))
    ensures RenderAll(Segments(lines, false), fix) == FenceRendered(lines[0], "", lines[1..], fix)
  {
    var rest := lines[1..];
    var n := ClosingLine(rest);
    Nothing(Concat(rest[..n]));
    if n < |rest| {
    } else {
      Whole(rest);
      var region := FencedRegion(lines[0], Concat(rest), "");
      Nothing([region]);
      Nothing(Released(region, fix));
      Nothing(lines[0] + Body(Concat(rest), fix).text);
    }
  }

  lemma RawSegment(lines: seq<string>, fix: Fixer)
    requires lines != [] && IsComplete(lines[0])
    requires !HasPrefix(TrimSpace(lines[0]), FENCE) && StartsRawJSON(TrimSpace(lines[0]))
    ensures RenderAll(Segments(lines, false), fix) == RawRendered("", NO_BRACKETS, lines, fix)
  {
    var n := BalancedLines(lines, NO_BRACKETS);
    assert "" + Concat(lines[..n]) == Concat(lines[..n]);
    assert Segments(lines, false) == [RawRegion(Concat(lines[..n]))] + Segments(lines[n..], false);
    assert Segments(lines, false)[1..] == Segments(lines[n..], false);
  }

  lemma {:induction false} FencedRenders(open: string, body: string, lines: seq<string>, fixes: nat, fix: Fixer)
    requires WellLined(lines)
    ensures Yields(Finished(Guard(InFenced(open, body, ""), fixes), lines, fix), fixes,
            FenceRendered(open, body, lines, fix))
    decreases |lines|, 1
  {
    if lines == [] {
      Whole(lines);
      Nothing(body);
    } else if IsComplete(lines[0]) && TrimSpace(lines[0]) == FENCE {
      PassRenders(lines[1..], false, fixes + Body(body, fix).count, fix);
      FenceCloses(open, body, lines, fixes, fix);
    } else if IsComplete(lines[0]) {
      FencedRenders(open, body + lines[0], lines[1..], fixes, fix);
      FenceGoesOn(open, body, lines, fixes, fix);
    } else {
      FenceCutOff(open, body, lines, fixes, fix);
    }
  }

  lemma FenceCloses(open: string, body: string, lines: seq<string>, fixes: nat, fix: Fixer)
    requires lines != [] && IsComplete(lines[0]) && TrimSpace(lines[0]) == FENCE
    requires var count := Body(body, fix).count;
             Yields(Finished(Guard(AtLine("", false), fixes + count), lines[1..], fix), fixes + count,
                    RenderAll(Segments(lines[1..], false), fix))
    ensures Yields(Finished(Guard(InFenced(open, body, ""), fixes), lines, fix), fixes,
            FenceRendered(open, body, lines, fix))
  {
    var whole := Body(body, fix);
    var g := Guard(AtLine("", false), fixes + whole.count);
    var rest := RenderAll(Segments(lines[1..], false), fix);
    Nothing(lines[0]);
    FinishedUnfolds(Guard(InFenced(open, body, ""), fixes), lines, fix);
    Whole(lines);
    Nothing(body);
  }

  lemma FenceGoesOn(open: string, body: string, lines: seq<string>, fixes: nat, fix: Fixer)
    requires lines != [] && IsComplete(lines[0]) && TrimSpace(lines[0]) != FENCE
    requires Yields(Finished(Guard(InFenced(open, body + lines[0], ""), fixes), lines[1..], fix), fixes,
                    FenceRendered(open, body + lines[0], lines[1..], fix))
    ensures Yields(Finished(Guard(InFenced(open, body, ""), fixes), lines, fix), fixes,
            FenceRendered(open, body, lines, fix))
  {
    var g := Guard(InFenced(open, body + lines[0], ""), fixes);
    Nothing(lines[0]);
    FinishedUnfolds(Guard(InFenced(open, body, ""), fixes), lines, fix);
    NothingInFront(g, Finished(g, lines[1..], fix));
    ShiftLine(body, lines, ClosingLine(lines[1..]));
  }

  /** The text ends in the middle of a line of the region. */
  lemma FenceCutOff(open: string, body: string, lines: seq<string>, fixes: nat, fix: Fixer)
    requires |lines| == 1 && !IsComplete(lines[0])
    ensures Yields(Finished(Guard(InFenced(open, body, ""), fixes), lines, fix), fixes,
            FenceRendered(open, body, lines, fix))
  {
    Nothing(lines[0]);
    FinishedUnfolds(Guard(InFenced(open, body, ""), fixes), lines, fix);
    ShiftLine(body, lines, 0);
    Whole(lines[1..]);
    Nothing(body + lines[0]);
  }

  /** Moving the first line into the accumulated text. */
  lemma ShiftLine(body: string, lines: seq<string>, n: nat)
    requires lines != [] && n < |lines|
    ensures body + Concat(lines[..n + 1]) == (body + lines[0]) + Concat(lines[1..][..n])
    ensures lines[n + 1..] == lines[1..][n..]
    ensures n + 1 < |lines| ==> lines[n + 2..] == lines[1..][n + 1..]
  {
    assert lines[..n + 1][1..] == lines[1..][..n];
    assert (body + lines[0]) + Concat(lines[1..][..n]) == body + (lines[0] + Concat(lines[1..][..n]));
  }

  lemma {:induction false} RawRenders(region: string, b: Brackets, lines: seq<string>, fixes: nat, fix: Fixer)
    requires WellLined(lines)
    ensures Yields(Finished(Guard(InRaw(region, b, ""), fixes), lines, fix), fixes, RawRendered(region, b, lines, fix))
    decreases |lines|, 1
  {
    var g := Guard(InRaw(region, b, ""), fixes);
    if lines == [] {
      assert region + Concat(lines[..0]) == region && region + "" == region;
    } else {
      var line, rest := lines[0], lines[1..];
      assert "" + line == line;
      FinishedUnfolds(g, lines, fix);
      if IsComplete(line) {
        RawLineRenders(region, b, lines, fixes, fix);
      } else {
        assert rest == [];
        ShiftLine(region, lines, 0);
        assert region + line + Concat(rest[..0]) == region + line;
      }
    }
  }

  lemma {:induction false} RawLineRenders(region: string, b: Brackets, lines: seq<string>, fixes: nat, fix: Fixer)
    requires WellLined(lines) && lines != [] && IsComplete(lines[0])
    ensures var first := RawLine(region + lines[0], Scanned(b, lines[0]), fixes, fix);
            Yields(Then(first, Finished(first.state, lines[1..], fix)), fixes, RawRendered(region, b, lines, fix))
    decreases |lines|, 0
  {
    if Scanned(b, lines[0]).depth <= 0 {
      PassRenders(lines[1..], false, fixes + fix(region + lines[0]).count, fix);
      RawLineCloses(region, b, lines, fixes, fix);
    } else {
      RawRenders(region + lines[0], Scanned(b, lines[0]), lines[1..], fixes, fix);
      RawLineGoesOn(region, b, lines, fixes, fix);
    }
  }

  lemma RawLineCloses(region: string, b: Brackets, lines: seq<string>, fixes: nat, fix: Fixer)
    requires lines != [] && IsComplete(lines[0]) && Scanned(b, lines[0]).depth <= 0
    requires var count := fix(region + lines[0]).count;
             Yields(Finished(Guard(AtLine("", false), fixes + count), lines[1..], fix), fixes + count,
                    RenderAll(Segments(lines[1..], false), fix))
    ensures var first := RawLine(region + lines[0], Scanned(b, lines[0]), fixes, fix);
            Yields(Then(first, Finished(first.state, lines[1..], fix)), fixes, RawRendered(region, b, lines, fix))
  {
    var whole := fix(region + lines[0]);
    var g := Guard(AtLine("", false), fixes + whole.count);
    RawEndsHere(region, b, lines, fix);
  }

  lemma RawLineGoesOn(region: string, b: Brackets, lines: seq<string>, fixes: nat, fix: Fixer)
    requires lines != [] && IsComplete(lines[0]) && Scanned(b, lines[0]).depth > 0
    requires var b' := Scanned(b, lines[0]);
             Yields(Finished(Guard(InRaw(region + lines[0], b', ""), fixes), lines[1..], fix), fixes,
                    RawRendered(region + lines[0], b', lines[1..], fix))
    ensures var first := RawLine(region + lines[0], Scanned(b, lines[0]), fixes, fix);
            Yields(Then(first, Finished(first.state, lines[1..], fix)), fixes, RawRendered(region, b, lines, fix))
  {
    var g := Guard(InRaw(region + lines[0], Scanned(b, lines[0]), ""), fixes);
    NothingInFront(g, Finished(g, lines[1..], fix));
    RawGoesOn(region, b, lines, fix);
  }

  lemma NothingInFront(g: Guard, rest: Step<Guard>)
    ensures Then(Step(g, ""), rest) == rest
  {
    Nothing(rest.out);
  }

  lemma RawEndsHere(region: string, b: Brackets, lines: seq<string>, fix: Fixer)
    requires lines != [] && IsComplete(lines[0]) && Scanned(b, lines[0]).depth <= 0
    ensures var whole := fix(region + lines[0]);
            RawRendered(region, b, lines, fix) ==
                Prepend(whole.text, whole.count, RenderAll(Segments(lines[1..], false), fix))
  {
    ShiftLine(region, lines, 0);
    Whole(lines[1..]);
    Nothing(region + lines[0]);
  }

  lemma RawGoesOn(region: string, b: Brackets, lines: seq<string>, fix: Fixer)
    requires lines != [] && IsComplete(lines[0]) && Scanned(b, lines[0]).depth > 0
    ensures RawRendered(region, b, lines, fix) == RawRendered(region + lines[0], Scanned(b, lines[0]), lines[1..], fix)
  {
    ShiftLine(region, lines, BalancedLines(lines[1..], Scanned(b, lines[0])));
  }

  // ------------------------------------------------------------------ whole runs

  /** What a client receives for a text block whose chunks are given: the streamed
      output, and what the flush at the end of the block adds. */
  function Received(chunks: seq<string>, fix: Fixer): string {
    var run := Streamed(Consuming(fix), FRESH, chunks);
    run.out + Flushed(run.state, fix).out
  }

  function ReceivedFixes(chunks: seq<string>, fix: Fixer): nat {
    Flushed(Streamed(Consuming(fix), FRESH, chunks).state, fix).state.fixes
  }

  /** However a text without surprising lines is cut, the client receives its rendering. */
  lemma StreamedIsRendered(chunks: seq<string>, fix: Fixer)
    requires Honest(fix)
    requires CutSafe(FRESH, Concat(chunks), fix)
    ensures Received(chunks, fix) == Rendered(Concat(chunks), fix).text
    ensures ReceivedFixes(chunks, fix) == Rendered(Concat(chunks), fix).count
  {
    var text := Concat(chunks);
    GuardSplits(fix);
    ChunksAgree(Consuming(fix), SafeSegment(fix), FRESH, chunks);
    FedIsFedLines(FRESH, text, fix);
    LinesAreWellLined(text);
    PassRenders(Lines(text), false, 0, fix);
  }

  // ---------------------------------------------------------- what is in the output

  lemma {:induction false} ConcatSplit(lines: seq<string>, n: nat)
    requires n <= |lines|
    ensures Concat(lines) == Concat(lines[..n]) + Concat(lines[n..])
  {
    assert lines == lines[..n] + lines[n..];
    ConcatAppend(lines[..n], lines[n..]);
  }

  function Sources(ss: seq<Segment>): string {
    if ss == [] then "" else Source(ss[0]) + Sources(ss[1..])
  }

  lemma FourParts(a: string, b: string, c: string, d: string)
    ensures (a + b + c) + d == a + (b + (c + d))
  {
  }

  lemma FenceCovers(lines: seq<string>, n: nat)
    requires lines != [] && n < |lines[1..]|
    ensures Source(FencedRegion(lines[0], Concat(lines[1..][..n]), lines[1..][n])) + Concat(lines[1..][n + 1..]) ==
            Concat(lines)
  {
    var rest := lines[1..];
    ConcatSplit(rest, n);
    DropDrop(rest, n, 1);
    FourParts(lines[0], Concat(rest[..n]), rest[n], Concat(rest[n + 1..]));
  }

  /** The first segment, and what comes after it. */
  lemma FirstSegment(lines: seq<string>, inFence: bool) returns (head: Segment, later: seq<string>, inFence': bool)
    requires WellLined(lines) && lines != []
    ensures |later| < |lines| && WellLined(later)
    ensures Segments(lines, inFence) == [head] + Segments(later, inFence')
    ensures Source(head) + Concat(later) == Concat(lines)
  {
    var rest := lines[1..];
    var t := TrimSpace(lines[0]);
    head, later, inFence' := Prose(lines[0]), rest, inFence;
    if IsComplete(lines[0]) {
      if HasPrefix(t, FENCE) {
        if !inFence && OpensJSON(t) {
          head, later, inFence' := FirstFence(lines);
        } else {
          inFence' := !inFence;
        }
      } else if !inFence && StartsRawJSON(t) {
        var n := BalancedLines(lines, NO_BRACKETS);
        ConcatSplit(lines, n);
        head, later := RawRegion(Concat(lines[..n])), lines[n..];
      }
    }
  }

  predicate OpensFence(line: string) {
    IsComplete(line) && HasPrefix(TrimSpace(line), FENCE) && OpensJSON(TrimSpace(line))
  }

  lemma ClosedFence(lines: seq<string>, n: nat)
    requires lines != [] && OpensFence(lines[0]) && n == ClosingLine(lines[1..]) < |lines[1..]|
    ensures Segments(lines, false) == [FencedRegion(lines[0], Concat(lines[1..][..n]), lines[1..][n])] +
                                      Segments(lines[1..][n + 1..], false)
  {
  }

  lemma OpenFence(lines: seq<string>)
    requires lines != [] && OpensFence(lines[0]) && ClosingLine(lines[1..]) >= |lines[1..]|
    ensures Segments(lines, false) == [FencedRegion(lines[0], Concat(lines[1..]), "")]
    ensures Source(FencedRegion(lines[0], Concat(lines[1..]), "")) == Concat(lines)
  {
    Nothing(lines[0] + Concat(lines[1..]));
  }

  lemma FirstFence(lines: seq<string>) returns (head: Segment, later: seq<string>, inFence: bool)
    requires WellLined(lines) && lines != [] && OpensFence(lines[0])
    ensures |later| < |lines| && WellLined(later)
    ensures Segments(lines, false) == [head] + Segments(later, inFence)
    ensures Source(head) + Concat(later) == Concat(lines)
  {
    var rest := lines[1..];
    var n := ClosingLine(rest);
    inFence := false;
    if n < |rest| {
      head, later := FencedRegion(lines[0], Concat(rest[..n]), rest[n]), rest[n + 1..];
      ClosedFence(lines, n);
      FenceCovers(lines, n);
    } else {
      head, later := FencedRegion(lines[0], Concat(rest), ""), [];
      OpenFence(lines);
      Nothing([head]);
      Nothing(Source(head));
    }
  }

  /** The segments partition the text: nothing is lost, moved or added. */
  lemma {:induction false} SegmentsCoverLines(lines: seq<string>, inFence: bool)
    requires WellLined(lines)
    ensures Sources(Segments(lines, inFence)) == Concat(lines)
    decreases |lines|
  {
    if lines != [] {
      var head, later, inFence' := FirstSegment(lines, inFence);
      SegmentsCoverLines(later, inFence');
    }
  }

  lemma {:induction false} NothingRewritten(ss: seq<Segment>, fix: Fixer)
    requires Honest(fix)
    requires RenderAll(ss, fix).count == 0
    ensures RenderAll(ss, fix).text == Sources(ss)
  {
    if ss != [] {
      NothingRewritten(ss[1..], fix);
    }
  }

  /** A text in which nothing is rewritten arrives byte for byte. */
  lemma UntouchedTextsArrive(chunks: seq<string>, fix: Fixer)
    requires Honest(fix)
    requires CutSafe(FRESH, Concat(chunks), fix)
    requires ReceivedFixes(chunks, fix) == 0
    ensures Received(chunks, fix) == Concat(chunks)
  {
    StreamedIsRendered(chunks, fix);
    LinesAreWellLined(Concat(chunks));
    LinesConcat(Concat(chunks));
    SegmentsCoverLines(Lines(Concat(chunks)), false);
    NothingRewritten(Segments(Lines(Concat(chunks)), false), fix);
  }

  /** The JSON that a segment releases, when it is a region that holds JSON. */
  function ReleasedJSON(s: Segment, fix: Fixer): Option<string> {
    match s
    case Prose(_) => None
    case FencedRegion(_, body, _) => if LooksLikeJSON(body) then Some(Body(body, fix).text) else None
    case RawRegion(text) => Some(fix(text).text)
  }

  lemma RepairIsHonest(eval: Evaluator)
    ensures Honest(RepairWith(eval))
  {
    forall s | Fixes(s, eval) == 0 ensures Repaired(s, eval) == s {
      NoFixesNoChange(s, eval);
    }
  }

  /** The guarantee to the client: in the output of every JSON region no value is left
      that denotes another number, and its strings and structure are those the model
      wrote. */
  lemma ReleasedRegionsAreSettled(s: Segment, eval: Evaluator)
    requires YieldsNumbers(eval)
    requires ReleasedJSON(s, RepairWith(eval)).Some?
    ensures var json := ReleasedJSON(s, RepairWith(eval)).value;
            && Fixes(json, eval) == 0
            && Skeleton(json) == Skeleton(if s.RawRegion? then s.text else s.body)
  {
    var source := if s.RawRegion? then s.text else s.body;
    RepairIsIdempotent(source, eval);
    RepairKeepsStructure(source, eval);
  }

  /** The guard with the JSON repair, on any chunks of a text whose lines are indented
      with spaces and tabs only. */
  lemma GuardIsChunkInvariant(chunks: seq<string>, chunks': seq<string>, eval: Evaluator)
    requires Concat(chunks) == Concat(chunks')
    requires forall k :: 0 <= k < |Lines(Concat(chunks))| ==> PlainlyIndented(Lines(Concat(chunks))[k])
    ensures Received(chunks, RepairWith(eval)) == Received(chunks', RepairWith(eval))
    ensures ReceivedFixes(chunks, RepairWith(eval)) == ReceivedFixes(chunks', RepairWith(eval))
  {
    RepairIsHonest(eval);
    PlainTextsAreCutSafe(FRESH, Concat(chunks), RepairWith(eval));
    StreamedIsRendered(chunks, RepairWith(eval));
    StreamedIsRendered(chunks', RepairWith(eval));
  }
}
