/**
 Feeding a text to a consumer that takes one segment of a line at a time, in one
 chunk or in several. Nothing here depends on what the consumer does; the laws say
 when cutting a text into chunks makes no difference to it.
 */
module LineFeed {
  import opened Util
  import opened Text
  import opened Sequences

  /** The next state of a consumer, and the text it releases. */
  datatype Step<G> = Step(state: G, out: string)

  /** Takes a state, a segment of a line, and whether the segment ends the line. */
  type Consumer<!G> = (G, string, bool) -> Step<G>

  function Then<G>(first: Step<G>, rest: Step<G>): Step<G> {
    Step(rest.state, first.out + rest.out)
  }

  lemma ThenAssociates<G>(a: Step<G>, b: Step<G>, c: Step<G>)
    ensures Then(Then(a, b), c) == Then(a, Then(b, c))
  {
    assert (a.out + b.out) + c.out == a.out + (b.out + c.out);
  }

  /** A chunk, cut into segments at its line breaks. */
  function Fed<G>(use: Consumer<G>, g: G, chunk: string): Step<G>
    decreases |chunk|
  {
    if chunk == "" then Step(g, "") else
    var n := FirstLine(chunk);
    var first := use(g, chunk[..n], IsComplete(chunk[..n]));
    Then(first, Fed(use, first.state, chunk[n..]))
  }

  /** A whole run: the chunks one after the other. */
  function Streamed<G>(use: Consumer<G>, g: G, chunks: seq<string>): Step<G>
    decreases |chunks|
  {
    if chunks == [] then Step(g, "") else
    var first := Fed(use, g, chunks[0]);
    Then(first, Streamed(use, first.state, chunks[1..]))
  }

  /** Every segment of the uncut text is safe where it is consumed. */
  predicate SafeText<G>(use: Consumer<G>, safe: (G, string, bool) -> bool, g: G, text: string)
    decreases |text|
  {
    text == "" ||
    (var n := FirstLine(text);
     var complete := IsComplete(text[..n]);
     safe(g, text[..n], complete) && SafeText(use, safe, use(g, text[..n], complete).state, text[n..]))
  }

  /** A safe segment may be consumed in two pieces, and its rest is then safe too. */
  ghost predicate SplitLaw<G(!new)>(use: Consumer<G>, safe: (G, string, bool) -> bool) {
    forall g, p, q, complete :: safe(g, p + q, complete) ==>
      && use(g, p + q, complete) == Then(use(g, p, false), use(use(g, p, false).state, q, complete))
      && safe(use(g, p, false).state, q, complete)
      && safe(g, p, false)
  }

  // --------------------------------------------------------------- any two chunks

  lemma FirstLineOfAppend(a: string, b: string)
    requires a != ""
    ensures IsComplete(a[..FirstLine(a)]) ==> FirstLine(a + b) == FirstLine(a)
    ensures !IsComplete(a[..FirstLine(a)]) ==> FirstLine(a) == |a|
    ensures !IsComplete(a[..FirstLine(a)]) && b != "" ==> FirstLine(a + b) == |a| + FirstLine(b)
  {
    var n := FirstLine(a);
    FirstLineBreaks(a);
    if IsComplete(a[..n]) {
      TakeWithin(a, b, n - 1);
      FirstLineUnique(a + b, n);
    } else if b != "" {
      FirstLineBreaks(b);
      TakeBeyond(a, b, FirstLine(b) - 1);
      FirstLineUnique(a + b, |a| + FirstLine(b));
    }
  }

  /** How the first line of `a + b` lies when it does not end within `a`. */
  lemma CutInsideLine(a: string, b: string)
    requires a != "" && b != "" && !IsComplete(a[..FirstLine(a)])
    ensures FirstLine(a) == |a| && a[..|a|] == a && a[|a|..] == ""
    ensures var n := |a| + FirstLine(b);
            && FirstLine(a + b) == n && (a + b)[..n] == a + b[..FirstLine(b)]
            && (a + b)[n..] == b[FirstLine(b)..]
            && IsComplete((a + b)[..n]) == IsComplete(b[..FirstLine(b)])
  {
    FirstLineOfAppend(a, b);
  }

  /** What is fed is fed line by line. */
  lemma FedFirst<G>(use: Consumer<G>, g: G, s: string, line: string, rest: string)
    requires s != "" && line == s[..FirstLine(s)] && rest == s[FirstLine(s)..]
    ensures var first := use(g, line, IsComplete(line)); Fed(use, g, s) == Then(first, Fed(use, first.state, rest))
  {
  }

  lemma FedOneLine<G>(use: Consumer<G>, g: G, line: string)
    requires line != "" && FirstLine(line) == |line|
    ensures Fed(use, g, line) == use(g, line, IsComplete(line))
  {
    assert line[..|line|] == line && line[|line|..] == "";
  }

  /** The cut falls inside the first line. */
  lemma FedWithinLine<G(!new)>(use: Consumer<G>, safe: (G, string, bool) -> bool, g: G, a: string, b: string)
    requires SplitLaw(use, safe)
    requires a != "" && b != "" && !IsComplete(a[..FirstLine(a)])
    requires SafeText(use, safe, g, a + b)
    ensures Fed(use, g, a + b) == Then(Fed(use, g, a), Fed(use, Fed(use, g, a).state, b))
    ensures SafeText(use, safe, g, a) && SafeText(use, safe, Fed(use, g, a).state, b)
  {
    CutInsideLine(a, b);
    var m := FirstLine(b);
    FedOneLine(use, g, a);
    var complete := IsComplete(b[..m]);
    assert safe(g, a + b[..m], complete);
    var one := use(g, a, false);
    var two := use(one.state, b[..m], complete);
    FedFirst(use, one.state, b, b[..m], b[m..]);
    FedFirst(use, g, a + b, a + b[..m], b[m..]);
    ThenAssociates(one, two, Fed(use, two.state, b[m..]));
  }

  /** Feeding a text in two chunks, or in one. */
  lemma {:induction false} FedInTwo<G(!new)>(use: Consumer<G>, safe: (G, string, bool) -> bool, g: G,
                                              a: string, b: string)
    requires SplitLaw(use, safe)
    requires SafeText(use, safe, g, a + b)
    ensures Fed(use, g, a + b) == Then(Fed(use, g, a), Fed(use, Fed(use, g, a).state, b))
    ensures SafeText(use, safe, g, a) && SafeText(use, safe, Fed(use, g, a).state, b)
    decreases |a|
  {
    if a == "" {
      assert a + b == b;
    } else if b == "" {
      assert a + b == a;
    } else if IsComplete(a[..FirstLine(a)]) {
      FirstLineOfAppend(a, b);
      var n := FirstLine(a);
      assert (a + b)[..n] == a[..n] && (a + b)[n..] == a[n..] + b;
      var first := use(g, a[..n], true);
      FedInTwo(use, safe, first.state, a[n..], b);
      var rest := Fed(use, first.state, a[n..]);
      ThenAssociates(first, rest, Fed(use, rest.state, b));
    } else {
      FedWithinLine(use, safe, g, a, b);
    }
  }

  /** Every way of cutting a safe text into chunks gives the state and the output of
      the uncut text. */
  lemma {:induction false} ChunksAgree<G(!new)>(use: Consumer<G>, safe: (G, string, bool) -> bool, g: G,
                                                 chunks: seq<string>)
    requires SplitLaw(use, safe)
    requires SafeText(use, safe, g, Concat(chunks))
    ensures Streamed(use, g, chunks) == Fed(use, g, Concat(chunks))
    decreases |chunks|
  {
    if chunks != [] {
      FedInTwo(use, safe, g, chunks[0], Concat(chunks[1..]));
      ChunksAgree(use, safe, Fed(use, g, chunks[0]).state, chunks[1..]);
    }
  }

  // ------------------------------------------------------------ texts that can be told apart

  /** A part of a line that does not reach its end. */
  lemma FrontOfLine(line: string, k: nat)
    requires 0 < k < |line| && HasNoBreak(line[..|line| - 1])
    ensures FirstLine(line[..k]) == k && !IsComplete(line[..k])
  {
    var p, init := line[..k], line[..|line| - 1];
    TakeTake(line, |line| - 1, k);
    TakeTake(line, |line| - 1, k - 1);
    TakeTake(line, k, k - 1);
    FirstLineUnique(p, k);
  }

  lemma EndOfLine(line: string, k: nat)
    requires 0 < k < |line| && IsComplete(line) && HasNoBreak(line[..|line| - 1])
    ensures FirstLine(line[k..]) == |line| - k && IsComplete(line[k..])
  {
    var q := line[k..];
    assert q[..|q| - 1] == line[..|line| - 1][k..|line| - 1];
    FirstLineUnique(q, |q|);
  }

  lemma ConcatOfTwo(p: string, q: string)
    ensures Concat([p, q]) == p + q
  {
    assert [p, q][1..] == [q] && [q][1..] == [];
    assert Concat([q]) == q + "" == q;
  }

  lemma StreamedTwo<G>(use: Consumer<G>, g: G, p: string, q: string)
    ensures var one := Fed(use, g, p);
            Streamed(use, g, [p, q]) == Then(one, Fed(use, one.state, q))
  {
    assert [p, q][1..] == [q] && [q][1..] == [];
    var one := Fed(use, g, p);
    var two := Fed(use, one.state, q);
    assert two.out + "" == two.out;
    assert Streamed(use, one.state, [q]) == Then(two, Step(two.state, "")) == two;
  }

  /** Two chunks that lie within one line. */
  lemma TwoPieces<G>(use: Consumer<G>, g: G, line: string, k: nat)
    requires 0 < k < |line| && IsComplete(line) && HasNoBreak(line[..|line| - 1])
    ensures Concat([line[..k], line[k..]]) == line
    ensures Streamed(use, g, [line[..k], line[k..]]) ==
            Then(use(g, line[..k], false), use(use(g, line[..k], false).state, line[k..], true))
  {
    var p, q := line[..k], line[k..];
    ConcatOfTwo(p, q);
    SplitAt(line, k);
    FrontOfLine(line, k);
    EndOfLine(line, k);
    FedOneLine(use, g, p);
    FedOneLine(use, use(g, p, false).state, q);
    StreamedTwo(use, g, p, q);
  }

  /** What tells two runs apart still does after a common first line. */
  lemma DifferenceLifts<G>(use: Consumer<G>, g: G, line: string, rest: string, chunks: seq<string>)
    requires IsComplete(line) && FirstLine(line) == |line|
    requires Concat(chunks) == rest
    requires var g' := use(g, line, true).state;
             Streamed(use, g', chunks) != Fed(use, g', rest)
    ensures Concat([line] + chunks) == line + rest
    ensures Streamed(use, g, [line] + chunks) != Fed(use, g, line + rest)
  {
    FedOneLine(use, g, line);
    Cons(line, chunks);
    Whole(line);
    FirstLineOfAppend(line, rest);
    Parts(line, rest);
    var first := use(g, line, true);
    var x, y := Streamed(use, first.state, chunks).out, Fed(use, first.state, rest).out;
    Parts(first.out, x);
    Parts(first.out, y);
  }

  lemma FrontInParts(text: string, m: nat, n: nat)
    requires m + n <= |text|
    ensures text[..m + n] == text[..m] + text[m..][..n]
  {
  }

  /** An unsafe line that shows its difference, after any lines before it, gives two runs
      over a prefix of the text that differ. */
  lemma {:induction false} UnsafeTextsDiffer<G(!new)>(use: Consumer<G>, safe: (G, string, bool) -> bool,
                                                      ready: G -> bool, g: G, text: string)
    returns (n: nat, chunks: seq<string>)
    requires forall h, line :: ready(h) && IsComplete(line) ==> ready(use(h, line, true).state)
    requires forall h, line :: ready(h) ==> safe(h, line, false)
    requires forall h, line ::
               ready(h) && IsComplete(line) && HasNoBreak(line[..|line| - 1]) && !safe(h, line, true) ==>
               exists k: nat :: 0 < k < |line| &&
                 use(h, line, true) !=
                 Then(use(h, line[..k], false), use(use(h, line[..k], false).state, line[k..], true))
    requires ready(g) && !SafeText(use, safe, g, text)
    ensures n <= |text| && Concat(chunks) == text[..n]
    ensures Streamed(use, g, chunks) != Fed(use, g, text[..n])
    decreases |text|
  {
    var m := FirstLine(text);
    var line, rest := text[..m], text[m..];
    FirstLineBreaks(text);
    TakeTake(text, m, m - 1);
    FirstLineUnique(line, m);
    FedOneLine(use, g, line);
    if !safe(g, line, IsComplete(line)) {
      var k: nat :| 0 < k < |line| &&
        use(g, line, true) != Then(use(g, line[..k], false), use(use(g, line[..k], false).state, line[k..], true));
      n, chunks := m, [line[..k], line[k..]];
      TwoPieces(use, g, line, k);
    } else {
      assert rest != "";
      var n', chunks' := UnsafeTextsDiffer(use, safe, ready, use(g, line, true).state, rest);
      n, chunks := m + n', [line] + chunks';
      FrontInParts(text, m, n');
      DifferenceLifts(use, g, line, rest[..n'], chunks');
    }
  }
}
