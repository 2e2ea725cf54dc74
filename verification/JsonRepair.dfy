/**
 The repair of arithmetic written in JSON value position
 (internal/agent/jsonrepair.go). The arithmetic evaluator is a parameter: a
 partial function on texts of which only one thing is assumed, that its results
 are numbers in the grammar of section 6 of RFC 8259.
 */
module JsonRepair {
  import opened Util
  import opened Sequences
  import opened Text

  type Evaluator = string -> Option<string>

  // ---------------------------------------------------------------- characters

  predicate IsBlank(c: char) {
    c == ' ' || c == '\t' || c == '\r' || c == '\n'
  }

  /** The characters an arithmetic expression may contain in value position. */
  predicate IsExprChar(c: char) {
    IsDigit(c) || IsBlank(c) || c in "+-*/%^().eE"
  }

  predicate IsStructural(c: char) {
    c in "{}[],:"
  }

  predicate StartsValue(c: char) {
    IsDigit(c) || c == '-' || c == '+' || c == '(' || c == '.'
  }

  predicate ClosesValue(c: char) {
    c == ',' || c == '}' || c == ']'
  }

  // ------------------------------------------- the number grammar of RFC 8259

  predicate IsExponent(t: string) {
    t == "" ||
    ((t[0] == 'e' || t[0] == 'E') &&
     var u := if |t| > 1 && (t[1] == '+' || t[1] == '-') then t[2..] else t[1..];
     |u| > 0 && DigitRun(u) == |u|)
  }

  predicate IsFractionExponent(t: string) {
    if t != "" && t[0] == '.' then
      var n := DigitRun(t[1..]);
      n > 0 && IsExponent(t[1 + n..])
    else
      IsExponent(t)
  }

  predicate IsUnsignedNumber(t: string) {
    var n := DigitRun(t);
    n > 0 && (t[0] == '0' ==> n == 1) && IsFractionExponent(t[n..])
  }

  predicate IsPlainNumber(s: string) {
    if s != "" && s[0] == '-' then IsUnsignedNumber(s[1..]) else IsUnsignedNumber(s)
  }

  /** What is assumed of the evaluator. */
  ghost predicate YieldsNumbers(eval: Evaluator) {
    forall e :: eval(e).Some? ==> IsPlainNumber(eval(e).value)
  }

  /** Characters that neither end a value nor open a bracket or a literal. */
  predicate IsNumberChar(c: char) {
    IsDigit(c) || c in "+-.eE"
  }

  predicate IsNumberText(t: string) {
    forall k :: 0 <= k < |t| ==> IsNumberChar(t[k])
  }

  lemma DigitsAreNumberText(t: string)
    ensures IsNumberText(t[..DigitRun(t)])
    ensures t == t[..DigitRun(t)] + t[DigitRun(t)..]
  {
    DigitRunIsMaximal(t);
  }

  lemma NumberTextAppend(a: string, b: string)
    requires IsNumberText(a) && IsNumberText(b)
    ensures IsNumberText(a + b)
  {
  }

  lemma ExponentText(t: string)
    requires IsExponent(t)
    ensures IsNumberText(t)
  {
    if t != "" {
      var m := if |t| > 1 && (t[1] == '+' || t[1] == '-') then 2 else 1;
      DigitsAreNumberText(t[m..]);
      assert t[m..] == t[m..][..DigitRun(t[m..])];
      NumberTextAppend(t[..m], t[m..]);
      assert t == t[..m] + t[m..];
    }
  }

  lemma FractionExponentText(t: string)
    requires IsFractionExponent(t)
    ensures IsNumberText(t)
  {
    if t != "" && t[0] == '.' {
      var n := DigitRun(t[1..]);
      ExponentText(t[1 + n..]);
      DigitsAreNumberText(t[1..]);
      assert t[1..][n..] == t[1 + n..];
      NumberTextAppend(t[1..][..n], t[1 + n..]);
      NumberTextAppend([t[0]], t[1..]);
      assert t == [t[0]] + t[1..];
    } else {
      ExponentText(t);
    }
  }

  lemma UnsignedText(u: string)
    requires IsUnsignedNumber(u)
    ensures u != "" && IsDigit(u[0]) && IsNumberText(u)
  {
    var n := DigitRun(u);
    DigitsAreNumberText(u);
    FractionExponentText(u[n..]);
    NumberTextAppend(u[..n], u[n..]);
  }

  /** A plain number starts a value, and consists of number characters only. */
  lemma PlainNumberChars(s: string)
    requires IsPlainNumber(s)
    ensures s != "" && (s[0] == '-' || IsDigit(s[0]))
    ensures IsNumberText(s)
  {
    if s[0] == '-' {
      UnsignedText(s[1..]);
      NumberTextAppend([s[0]], s[1..]);
      assert s == [s[0]] + s[1..];
    } else {
      UnsignedText(s);
    }
  }

  // -------------------------------------------------------------- the scanners

  /** How many characters remain of a string literal whose opening quote is
      already behind: up to and including the closing quote, or all of them. */
  function LiteralRest(t: string): (n: nat)
    ensures n <= |t|
  {
    if t == "" then 0
    else if t[0] == '"' then 1
    else if t[0] == '\\' then
      if |t| == 1 then 1 else 2 + LiteralRest(t[2..])
    else 1 + LiteralRest(t[1..])
  }

  /** Length of the value at the front of `t`, inside `depth` parentheses, and
      whether it ends where a JSON value may end. */
  function ValueScan(t: string, depth: nat): (r: (nat, bool))
    ensures r.0 <= |t|
  {
    if t == "" then (0, true)
    else if t[0] == '(' then
      var r := ValueScan(t[1..], depth + 1); (r.0 + 1, r.1)
    else if t[0] == ')' then
      if depth == 0 then (0, false)
      else var r := ValueScan(t[1..], depth - 1); (r.0 + 1, r.1)
    else if depth == 0 && ClosesValue(t[0]) then (0, true)
    else if !IsExprChar(t[0]) then (0, false)
    else var r := ValueScan(t[1..], depth); (r.0 + 1, r.1)
  }

  lemma {:induction false} ValueScanChars(t: string, depth: nat)
    ensures var r := ValueScan(t, depth);
            && (forall k :: 0 <= k < r.0 ==> IsExprChar(t[k]))
            && (r.1 && r.0 < |t| ==> ClosesValue(t[r.0]))
    decreases |t|
  {
    var r := ValueScan(t, depth);
    if r.0 > 0 {
      var d := if t[0] == '(' then depth + 1 else if t[0] == ')' then depth - 1 else depth;
      ValueScanChars(t[1..], d);
      forall k | 0 <= k < r.0 ensures IsExprChar(t[k]) {
        if k > 0 {
          assert t[k] == t[1..][k - 1];
        }
      }
    }
  }

  /** The length of `t` without its trailing blanks. */
  function TrimmedLength(t: string): (n: nat)
    ensures n <= |t|
    ensures n > 0 ==> !IsBlank(t[n - 1])
    ensures forall k :: n <= k < |t| ==> IsBlank(t[k])
  {
    if t == "" then 0
    else if IsBlank(t[|t| - 1]) then TrimmedLength(t[..|t| - 1])
    else |t|
  }

  lemma {:induction false} TrimmedLengthUnique(t: string, n: nat)
    requires n <= |t|
    requires n > 0 ==> !IsBlank(t[n - 1])
    requires forall k :: n <= k < |t| ==> IsBlank(t[k])
    ensures TrimmedLength(t) == n
  {
  }

  // ------------------------------------------------------- pieces of a document

  /** What is known of the document before the current position: the open
      containers, and the last significant character outside a string. */
  datatype Context = Context(stack: string, prev: char)

  const START := Context("", '\0')

  predicate ValuePosition(ctx: Context) {
    ctx.prev == ':' || ctx.prev == '[' ||
    (ctx.prev == ',' && ctx.stack != "" && ctx.stack[|ctx.stack| - 1] == '[')
  }

  /** A document is cut into string literals and single characters, which are
      copied, and the texts found where a value belongs. */
  datatype Piece = Copied(text: string) | Value(text: string, closed: bool)

  function NextPiece(t: string, ctx: Context): (p: Piece)
    requires t != ""
    ensures 0 < |p.text| <= |t| && p.text == t[..|p.text|]
  {
    var c := t[0];
    if c == '"' then Copied(t[..1 + LiteralRest(t[1..])])
    else if StartsValue(c) && ValuePosition(ctx) then
      assert c == '(' || IsExprChar(c);
      Value(t[..ValueScan(t, 0).0], ValueScan(t, 0).1)
    else Copied(t[..1])
  }

  function After(p: Piece, ctx: Context): Context
    requires p.text != ""
  {
    if p.Value? then ctx.(prev := '0') else
    var c := p.text[0];
    if IsBlank(c) then ctx
    else if c == '{' || c == '[' then Context(ctx.stack + [c], c)
    else if c == '}' || c == ']' then
      Context(if ctx.stack != "" then ctx.stack[..|ctx.stack| - 1] else "", c)
    else ctx.(prev := c)
  }

  /** The pieces of the document `t`, read in context `ctx`. */
  function Pieces(t: string, ctx: Context): seq<Piece>
    decreases |t|
  {
    if t == "" then [] else
    var p := NextPiece(t, ctx);
    [p] + Pieces(t[|p.text|..], After(p, ctx))
  }

  /** A value the repair replaces: it is complete, not yet a number, and denotes one. */
  predicate Fixable(p: Piece, eval: Evaluator) {
    p.Value? && p.closed &&
    var e := p.text[..TrimmedLength(p.text)];
    !IsPlainNumber(e) && eval(e).Some?
  }

  function Fixed(p: Piece, eval: Evaluator): Piece {
    if Fixable(p, eval) then
      var n := TrimmedLength(p.text);
      p.(text := eval(p.text[..n]).value + p.text[n..])
    else p
  }

  function FixAll(ps: seq<Piece>, eval: Evaluator): (qs: seq<Piece>)
    ensures |qs| == |ps|
    ensures forall k :: 0 <= k < |ps| ==> qs[k] == Fixed(ps[k], eval)
  {
    if ps == [] then [] else [Fixed(ps[0], eval)] + FixAll(ps[1..], eval)
  }

  function Joined(ps: seq<Piece>): string {
    if ps == [] then "" else ps[0].text + Joined(ps[1..])
  }

  function FixCount(ps: seq<Piece>, eval: Evaluator): nat {
    if ps == [] then 0 else (if Fixable(ps[0], eval) then 1 else 0) + FixCount(ps[1..], eval)
  }

  /** The repaired text: every fixable value of the document is replaced by the
      number it denotes, everything else is kept. */
  function Repaired(s: string, eval: Evaluator): string {
    Joined(FixAll(Pieces(s, START), eval))
  }

  function Fixes(s: string, eval: Evaluator): nat {
    FixCount(Pieces(s, START), eval)
  }

  // ------------------------------------------------------------ the source's loops

  /** Index just past the string literal that opens at `s[i]`. */
  method SkipJSONString(s: string, i: nat) returns (end: nat)
    requires i < |s|
    ensures end == i + 1 + LiteralRest(s[i + 1..])
  {
    var j := i + 1;
    while j < |s|
      invariant i + 1 <= j <= |s| + 1
      invariant Min(j, |s|) + (if j <= |s| then LiteralRest(s[j..]) else 0) == i + 1 + LiteralRest(s[i + 1..])
    {
      assert s[j..][1..] == s[j + 1..];
      if s[j] == '\\' {
        if j + 2 <= |s| {
          assert s[j..][2..] == s[j + 2..];
        }
        j := j + 1;
      } else if s[j] == '"' {
        return j + 1;
      }
      j := j + 1;
    }
    end := |s|;
  }

  /** End of the value that starts at `s[i]`, and whether it may end there. */
  method ScanExprValue(s: string, i: nat) returns (end: nat, ok: bool)
    requires i <= |s|
    ensures end == i + ValueScan(s[i..], 0).0 && ok == ValueScan(s[i..], 0).1
  {
    var depth: nat := 0;
    var j := i;
    while j < |s|
      invariant i <= j <= |s|
      invariant ValueScan(s[i..], 0) == (j - i + ValueScan(s[j..], depth).0, ValueScan(s[j..], depth).1)
    {
      var c := s[j];
      assert s[j..][1..] == s[j + 1..];
      if c == '(' {
        depth := depth + 1;
      } else if c == ')' {
        if depth == 0 {
          return j, false;
        }
        depth := depth - 1;
      } else if depth == 0 && ClosesValue(c) {
        return j, true;
      } else if !IsExprChar(c) {
        return j, false;
      }
      j := j + 1;
    }
    return |s|, true;
  }

  /** What a round of the loop does. */
  predicate Round(s: string, i: nat, ctx: Context, eval: Evaluator, written: string, next: nat, ctx': Context,
                  rewrote: bool)
    requires i < |s|
  {
    var p := NextPiece(s[i..], ctx);
    && written == Fixed(p, eval).text && next == i + |p.text| && ctx' == After(p, ctx)
    && rewrote == Fixable(p, eval)
  }

  /** One round of the repair loop: what it writes for the piece at `s[i]`, where it
      goes on, and whether it rewrote a value. */
  method RepairRound(s: string, i: nat, ctx: Context, eval: Evaluator)
    returns (written: string, next: nat, ctx': Context, rewrote: bool)
    requires i < |s|
    ensures Round(s, i, ctx, eval, written, next, ctx', rewrote)
  {
    var c := s[i];
    ghost var t := s[i..];
    written, next, ctx', rewrote := [c], i + 1, ctx.(prev := c), false;
    if c == '"' {
      next := SkipJSONString(s, i);
      assert t[1..] == s[i + 1..];
      written := s[i..next];
    } else if IsBlank(c) {
      ctx' := ctx;
    } else if c == '{' || c == '[' {
      ctx' := Context(ctx.stack + [c], c);
    } else if c == '}' || c == ']' {
      ctx' := Context(if ctx.stack != "" then ctx.stack[..|ctx.stack| - 1] else "", c);
    } else if c == ',' || c == ':' {
    } else if ValuePosition(ctx) && StartsValue(c) {
      var ok;
      next, ok := ScanExprValue(s, i);
      var tok := s[i..next];
      assert tok == NextPiece(t, ctx).text;
      var n := TrimmedLength(tok);
      var trimmed := tok[..n];
      ctx' := ctx.(prev := '0');
      if ok && !IsPlainNumber(trimmed) && eval(trimmed).Some? {
        written, rewrote := eval(trimmed).value + tok[n..], true;
      } else {
        written := tok;
      }
    }
  }

  /** What is written and counted, and what the rest comes to, make up the repaired text. */
  predicate SoFar(s: string, eval: Evaluator, out: string, fixed: nat, rest: string, ctx: Context) {
    && Repaired(s, eval) == out + Joined(FixAll(Pieces(rest, ctx), eval))
    && Fixes(s, eval) == fixed + FixCount(Pieces(rest, ctx), eval)
  }

  lemma PieceKeeps(s: string, eval: Evaluator, out: string, fixed: nat, rest: string, ctx: Context,
                   rest': string, ctx': Context, written: string, fixed': nat)
    requires rest != "" && SoFar(s, eval, out, fixed, rest, ctx)
    requires var p := NextPiece(rest, ctx);
             && rest' == rest[|p.text|..] && ctx' == After(p, ctx) && written == Fixed(p, eval).text
             && fixed' == fixed + if Fixable(p, eval) then 1 else 0
    ensures SoFar(s, eval, out + written, fixed', rest', ctx')
  {
    LoopStep(rest, ctx, eval);
    Rejoin(out, written, Joined(FixAll(Pieces(rest', ctx'), eval)));
  }

  lemma RoundKeeps(s: string, eval: Evaluator, out: string, fixed: nat, i: nat, ctx: Context,
                   written: string, next: nat, ctx': Context, rewrote: bool)
    requires i < |s| && SoFar(s, eval, out, fixed, s[i..], ctx) && Round(s, i, ctx, eval, written, next, ctx', rewrote)
    ensures next <= |s| && SoFar(s, eval, out + written, if rewrote then fixed + 1 else fixed, s[next..], ctx')
  {
    DropDrop(s, i, |NextPiece(s[i..], ctx).text|);
    PieceKeeps(s, eval, out, fixed, s[i..], ctx, s[next..], ctx', written, if rewrote then fixed + 1 else fixed);
  }

  /** The repair loop computes `Repaired` and counts the values it rewrote. */
  method RepairJSONExpressions(s: string, eval: Evaluator) returns (out: string, fixed: nat)
    ensures out == Repaired(s, eval)
    ensures fixed == Fixes(s, eval)
  {
    var i, ctx := 0, START;
    out, fixed := "", 0;
    Whole(s);
    Nothing(Repaired(s, eval));
    while i < |s|
      invariant 0 <= i <= |s| && SoFar(s, eval, out, fixed, s[i..], ctx)
    {
      var written, next, ctx', rewrote := RepairRound(s, i, ctx, eval);
      RoundKeeps(s, eval, out, fixed, i, ctx, written, next, ctx', rewrote);
      out, i, ctx := out + written, next, ctx';
      fixed := if rewrote then fixed + 1 else fixed;
    }
    Nothing(out);
  }

  lemma LoopStep(t: string, ctx: Context, eval: Evaluator)
    requires t != ""
    ensures var p := NextPiece(t, ctx);
            var rest := Pieces(t[|p.text|..], After(p, ctx));
            && Joined(FixAll(Pieces(t, ctx), eval)) == Fixed(p, eval).text + Joined(FixAll(rest, eval))
            && FixCount(Pieces(t, ctx), eval) == (if Fixable(p, eval) then 1 else 0) + FixCount(rest, eval)
  {
    var p := NextPiece(t, ctx);
    var rest := Pieces(t[|p.text|..], After(p, ctx));
    assert Pieces(t, ctx) == [p] + rest && ([p] + rest)[1..] == rest;
    assert FixAll([p] + rest, eval) == [Fixed(p, eval)] + FixAll(rest, eval);
    assert ([Fixed(p, eval)] + FixAll(rest, eval))[1..] == FixAll(rest, eval);
  }

  // -------------------------------------------------- what the repair guarantees

  /** Two continuations that a scanner cannot tell apart by their first character. */
  ghost predicate SameHead(a: string, b: string) {
    (a == "" <==> b == "") && (a != "" ==> a[0] == b[0])
  }

  lemma {:induction false} LiteralRestLocal(lit: string, rest: string, rest': string)
    requires LiteralRest(lit + rest) == |lit|
    requires rest == "" ==> rest' == ""
    ensures LiteralRest(lit + rest') == |lit|
    decreases |lit|
  {
    var t, t' := lit + rest, lit + rest';
    if lit == "" {
      assert t == rest;
    } else if lit[0] == '"' {
    } else if lit[0] == '\\' {
      if |lit| == 1 {
        assert |t| == 1;
      } else {
        assert t[2..] == lit[2..] + rest && t'[2..] == lit[2..] + rest';
        LiteralRestLocal(lit[2..], rest, rest');
      }
    } else {
      assert t[1..] == lit[1..] + rest && t'[1..] == lit[1..] + rest';
      LiteralRestLocal(lit[1..], rest, rest');
    }
  }

  lemma {:induction false} ValueScanLocal(tok: string, rest: string, rest': string, depth: nat)
    requires ValueScan(tok + rest, depth).0 == |tok|
    requires SameHead(rest, rest')
    ensures ValueScan(tok + rest', depth) == ValueScan(tok + rest, depth)
    decreases |tok|
  {
    var t, t' := tok + rest, tok + rest';
    if tok == "" {
      assert t == rest && t' == rest';
    } else {
      assert t[1..] == tok[1..] + rest && t'[1..] == tok[1..] + rest';
      var d := if tok[0] == '(' then depth + 1 else if tok[0] == ')' && depth > 0 then depth - 1 else depth;
      ValueScanLocal(tok[1..], rest, rest', d);
    }
  }

  lemma {:induction false} ValueScanNumber(tok: string, rest: string)
    requires forall k :: 0 <= k < |tok| ==> IsNumberChar(tok[k]) || IsBlank(tok[k])
    requires rest == "" || ClosesValue(rest[0])
    ensures ValueScan(tok + rest, 0) == (|tok|, true)
  {
    var t := tok + rest;
    if tok == "" {
      assert t == rest;
    } else {
      assert t[1..] == tok[1..] + rest;
      ValueScanNumber(tok[1..], rest);
    }
  }

  /** Where no value belongs, the first character of a document is copied. */
  lemma HeadIsCopied(t: string, ctx: Context, eval: Evaluator)
    requires !ValuePosition(ctx)
    ensures SameHead(t, Joined(FixAll(Pieces(t, ctx), eval)))
  {
    if t != "" {
      LoopStep(t, ctx, eval);
    }
  }

  lemma FixedSettles(p: Piece, eval: Evaluator)
    requires YieldsNumbers(eval)
    ensures !Fixable(Fixed(p, eval), eval)
  {
    if Fixable(p, eval) {
      var n := TrimmedLength(p.text);
      var num := eval(p.text[..n]).value;
      PlainNumberChars(num);
      TrimmedLengthUnique(num + p.text[n..], |num|);
      assert (num + p.text[n..])[..|num|] == num;
    }
  }

  /** A replaced value is read back, in front of what ended it, as a settled value. */
  lemma NextPieceOfNumber(p: Piece, ctx: Context, eval: Evaluator, rest': string)
    requires YieldsNumbers(eval) && Fixable(p, eval) && ValuePosition(ctx)
    requires rest' == "" || ClosesValue(rest'[0])
    ensures var q := Fixed(p, eval);
            q.text != "" && NextPiece(q.text + rest', ctx) == q
  {
    var q := Fixed(p, eval);
    var n := TrimmedLength(p.text);
    var num := eval(p.text[..n]).value;
    PlainNumberChars(num);
    forall k | 0 <= k < |q.text| ensures IsNumberChar(q.text[k]) || IsBlank(q.text[k]) {
      if k >= |num| {
        assert q.text[k] == p.text[n + k - |num|];
      }
    }
    ValueScanNumber(q.text, rest');
    assert (q.text + rest')[..|q.text|] == q.text;
  }

  /** Fixing a piece in front of any continuation that keeps its first character
      leaves a text whose next piece is the fixed piece. */
  lemma NextPieceOfFixed(t: string, ctx: Context, eval: Evaluator, rest': string)
    requires YieldsNumbers(eval)
    requires t != ""
    requires var p := NextPiece(t, ctx);
             var rest := t[|p.text|..];
             (rest == "" ==> rest' == "") && (p.Value? ==> SameHead(rest, rest'))
    ensures var q := Fixed(NextPiece(t, ctx), eval);
            q.text != "" && NextPiece(q.text + rest', ctx) == q && After(q, ctx) == After(NextPiece(t, ctx), ctx)
  {
    var p := NextPiece(t, ctx);
    var rest := t[|p.text|..];
    assert t == p.text + rest;
    var q := Fixed(p, eval);
    var u := q.text + rest';
    if t[0] == '"' {
      var lit := p.text[1..];
      assert t[1..] == lit + rest && u[1..] == lit + rest';
      LiteralRestLocal(lit, rest, rest');
      assert u[..|p.text|] == p.text;
    } else if p.Copied? {
      assert u[..1] == p.text;
    } else if Fixable(p, eval) {
      ValueScanChars(t, 0);
      NextPieceOfNumber(p, ctx, eval, rest');
    } else {
      ValueScanLocal(p.text, rest, rest', 0);
      assert u[..|p.text|] == p.text;
    }
  }

  /** The main fact: cutting the repaired document gives back the repaired pieces,
      one for one, so the repair changes no boundary between values and the rest. */
  lemma {:induction false} PiecesOfRepaired(t: string, ctx: Context, eval: Evaluator)
    requires YieldsNumbers(eval)
    ensures Pieces(Joined(FixAll(Pieces(t, ctx), eval)), ctx) == FixAll(Pieces(t, ctx), eval)
    decreases |t|
  {
    if t != "" {
      var p := NextPiece(t, ctx);
      var rest, ctx' := t[|p.text|..], After(p, ctx);
      var rest' := Joined(FixAll(Pieces(rest, ctx'), eval));
      LoopStep(t, ctx, eval);
      PiecesOfRepaired(rest, ctx', eval);
      if p.Value? {
        HeadIsCopied(rest, ctx', eval);
      }
      NextPieceOfFixed(t, ctx, eval, rest');
      var q := Fixed(p, eval);
      assert (q.text + rest')[|q.text|..] == rest';
      assert FixAll(Pieces(t, ctx), eval) == [q] + FixAll(Pieces(rest, ctx'), eval) by {
        assert Pieces(t, ctx)[1..] == Pieces(rest, ctx');
      }
    }
  }

  lemma {:induction false} NothingFixable(ps: seq<Piece>, eval: Evaluator)
    requires forall k :: 0 <= k < |ps| ==> !Fixable(ps[k], eval)
    ensures FixAll(ps, eval) == ps && FixCount(ps, eval) == 0
  {
    if ps != [] {
      NothingFixable(ps[1..], eval);
      assert ps == [ps[0]] + ps[1..];
    }
  }

  /** Running the repair on its own output rewrites nothing: no client ever
      receives a complete value that still denotes another number. */
  lemma RepairIsIdempotent(s: string, eval: Evaluator)
    requires YieldsNumbers(eval)
    ensures Repaired(Repaired(s, eval), eval) == Repaired(s, eval)
    ensures Fixes(Repaired(s, eval), eval) == 0
  {
    PiecesOfRepaired(s, START, eval);
    var qs := FixAll(Pieces(s, START), eval);
    forall k | 0 <= k < |qs| ensures !Fixable(qs[k], eval) {
      FixedSettles(Pieces(s, START)[k], eval);
    }
    NothingFixable(qs, eval);
  }

  lemma {:induction false} TextOfPieces(t: string, ctx: Context)
    ensures Joined(Pieces(t, ctx)) == t
    decreases |t|
  {
    if t != "" {
      var p := NextPiece(t, ctx);
      TextOfPieces(t[|p.text|..], After(p, ctx));
      Cons(p, Pieces(t[|p.text|..], After(p, ctx)));
      SplitAt(t, |p.text|);
    }
  }

  lemma {:induction false} CountZero(ps: seq<Piece>, eval: Evaluator)
    requires FixCount(ps, eval) == 0
    ensures FixAll(ps, eval) == ps
  {
    if ps != [] {
      CountZero(ps[1..], eval);
      assert ps == [ps[0]] + ps[1..];
    }
  }

  /** A count of zero means the text was not touched. */
  lemma NoFixesNoChange(s: string, eval: Evaluator)
    requires Fixes(s, eval) == 0
    ensures Repaired(s, eval) == s
  {
    CountZero(Pieces(s, START), eval);
    TextOfPieces(s, START);
  }

  // ------------------------------------------------------- structure is preserved

  datatype Mark = Literal(text: string) | Sign(c: char)

  /** The string literals of a document and the structural characters outside
      them, in order. It is defined without reference to values. */
  function Skeleton(t: string): seq<Mark>
    decreases |t|
  {
    if t == "" then []
    else if t[0] == '"' then
      var n := 1 + LiteralRest(t[1..]);
      [Literal(t[..n])] + Skeleton(t[n..])
    else if IsStructural(t[0]) then [Sign(t[0])] + Skeleton(t[1..])
    else Skeleton(t[1..])
  }

  lemma {:induction false} SkeletonSkips(tok: string, rest: string)
    requires forall k :: 0 <= k < |tok| ==> tok[k] != '"' && !IsStructural(tok[k])
    ensures Skeleton(tok + rest) == Skeleton(rest)
  {
    if tok == "" {
      assert tok + rest == rest;
    } else {
      assert (tok + rest)[1..] == tok[1..] + rest;
      SkeletonSkips(tok[1..], rest);
    }
  }

  /** What one piece contributes to the skeleton. */
  function Marks(p: Piece): seq<Mark> {
    if p.Value? || p.text == "" then []
    else if p.text[0] == '"' then [Literal(p.text)]
    else if IsStructural(p.text[0]) then [Sign(p.text[0])]
    else []
  }

  /** A value holds no quote and no structural character. */
  lemma ValueIsPlain(t: string, ctx: Context)
    requires t != "" && NextPiece(t, ctx).Value?
    ensures var tok := NextPiece(t, ctx).text;
            forall k :: 0 <= k < |tok| ==> tok[k] != '"' && !IsStructural(tok[k])
  {
    ValueScanChars(t, 0);
  }

  lemma SkeletonOfValue(t: string, ctx: Context)
    requires t != "" && NextPiece(t, ctx).Value?
    ensures Skeleton(t) == Skeleton(t[|NextPiece(t, ctx).text|..])
  {
    var tok := NextPiece(t, ctx).text;
    ValueIsPlain(t, ctx);
    SplitAt(t, |tok|);
    SkeletonSkips(tok, t[|tok|..]);
  }

  lemma SkeletonOfPiece(t: string, ctx: Context)
    requires t != ""
    ensures var p := NextPiece(t, ctx);
            Skeleton(t) == Marks(p) + Skeleton(t[|p.text|..])
  {
    if NextPiece(t, ctx).Value? {
      SkeletonOfValue(t, ctx);
      Nothing(Skeleton(t));
    } else {
      SkeletonOfCopy(t, ctx);
    }
  }

  lemma SkeletonOfCopy(t: string, ctx: Context)
    requires t != "" && !NextPiece(t, ctx).Value?
    ensures var p := NextPiece(t, ctx);
            Skeleton(t) == Marks(p) + Skeleton(t[|p.text|..])
  {
    var p := NextPiece(t, ctx);
    if t[0] != '"' && !IsStructural(t[0]) {
      Nothing(Skeleton(t[|p.text|..]));
    }
  }

  lemma {:induction false} SkeletonKeptFrom(t: string, ctx: Context, eval: Evaluator)
    requires YieldsNumbers(eval)
    ensures Skeleton(Joined(FixAll(Pieces(t, ctx), eval))) == Skeleton(t)
    decreases |t|
  {
    if t != "" {
      var p := NextPiece(t, ctx);
      var q := Fixed(p, eval);
      var rest, ctx' := t[|p.text|..], After(p, ctx);
      var rest' := Joined(FixAll(Pieces(rest, ctx'), eval));
      LoopStep(t, ctx, eval);
      SkeletonKeptFrom(rest, ctx', eval);
      SkeletonOfPiece(t, ctx);
      if p.Value? {
        HeadIsCopied(rest, ctx', eval);
      }
      NextPieceOfFixed(t, ctx, eval, rest');
      SkeletonOfPiece(q.text + rest', ctx);
      assert (q.text + rest')[|q.text|..] == rest';
    }
  }

  /** The repair keeps every string literal and every structural character. */
  lemma RepairKeepsStructure(s: string, eval: Evaluator)
    requires YieldsNumbers(eval)
    ensures Skeleton(Repaired(s, eval)) == Skeleton(s)
  {
    SkeletonKeptFrom(s, START, eval);
  }

  // ------------------------------------------------------------- what is repaired

  /** An arithmetic expression with balanced parentheses, `depth` of them open before it. */
  predicate IsExpression(e: string, depth: nat) {
    if e == "" then depth == 0
    else if e[0] == '(' then IsExpression(e[1..], depth + 1)
    else if e[0] == ')' then depth > 0 && IsExpression(e[1..], depth - 1)
    else IsExprChar(e[0]) && IsExpression(e[1..], depth)
  }

  lemma {:induction false} ScanReadsExpression(e: string, tail: string, depth: nat)
    requires IsExpression(e, depth) && (tail == "" || ClosesValue(tail[0]))
    ensures ValueScan(e + tail, depth) == (|e|, true)
    decreases |e|
  {
    if e == "" {
      Nothing(tail);
    } else {
      assert (e + tail)[0] == e[0] && (e + tail)[1..] == e[1..] + tail;
      ScanReadsExpression(e[1..], tail, if e[0] == '(' then depth + 1 else if e[0] == ')' then depth - 1 else depth);
    }
  }

  /** The output for a document from a position on. */
  function RepairedFrom(t: string, ctx: Context, eval: Evaluator): string {
    Joined(FixAll(Pieces(t, ctx), eval))
  }

  lemma PieceIsCopied(p: string, t: string, ctx: Context, eval: Evaluator)
    requires p != "" && NextPiece(p + t, ctx) == Copied(p)
    ensures RepairedFrom(p + t, ctx, eval) == p + RepairedFrom(t, After(Copied(p), ctx), eval)
  {
    LoopStep(p + t, ctx, eval);
    Parts(p, t);
  }

  lemma CharacterIsCopied(c: char, t: string, ctx: Context, eval: Evaluator)
    requires c != '"' && !(StartsValue(c) && ValuePosition(ctx))
    ensures RepairedFrom([c] + t, ctx, eval) == [c] + RepairedFrom(t, After(Copied([c]), ctx), eval)
  {
    Cons(c, t);
    assert NextPiece([c] + t, ctx) == Copied([c]);
    PieceIsCopied([c], t, ctx, eval);
  }

  lemma {:induction false} LiteralEnds(s: string, t: string)
    requires forall k :: 0 <= k < |s| ==> s[k] != '"' && s[k] != '\\'
    ensures LiteralRest(s + "\"" + t) == |s| + 1
  {
    if s == "" {
      Parts("\"", t);
      assert "" + "\"" + t == "\"" + t;
    } else {
      assert (s + "\"" + t)[0] == s[0] && (s + "\"" + t)[1..] == s[1..] + "\"" + t;
      LiteralEnds(s[1..], t);
    }
  }

  function Quoted(s: string): string {
    "\"" + s + "\""
  }

  lemma LiteralIsNext(s: string, t: string, ctx: Context)
    requires forall k :: 0 <= k < |s| ==> s[k] != '"' && s[k] != '\\'
    ensures NextPiece(Quoted(s) + t, ctx) == Copied(Quoted(s))
  {
    var u := Quoted(s) + t;
    assert u[0] == '"' && u[1..] == s + "\"" + t;
    LiteralEnds(s, t);
    Parts(Quoted(s), t);
  }

  lemma LiteralIsCopied(s: string, t: string, ctx: Context, eval: Evaluator)
    requires forall k :: 0 <= k < |s| ==> s[k] != '"' && s[k] != '\\'
    ensures RepairedFrom(Quoted(s) + t, ctx, eval) == Quoted(s) + RepairedFrom(t, ctx.(prev := '"'), eval)
  {
    LiteralIsNext(s, t, ctx);
    PieceIsCopied(Quoted(s), t, ctx, eval);
  }

  /** Where a value belongs, an expression that denotes a number and is none yet is replaced
      by that number. */
  lemma ExpressionIsReplaced(e: string, tail: string, ctx: Context, eval: Evaluator)
    requires e != "" && StartsValue(e[0]) && IsExpression(e, 0) && !IsBlank(e[|e| - 1])
    requires tail == "" || ClosesValue(tail[0])
    requires ValuePosition(ctx) && !IsPlainNumber(e) && eval(e).Some?
    ensures RepairedFrom(e + tail, ctx, eval) == eval(e).value + RepairedFrom(tail, ctx.(prev := '0'), eval)
  {
    var u := e + tail;
    ScanReadsExpression(e, tail, 0);
    Parts(e, tail);
    assert u[0] == e[0] && e[0] != '"';
    assert NextPiece(u, ctx) == Value(e, true);
    TrimmedLengthUnique(e, |e|);
    Whole(e);
    LoopStep(u, ctx, eval);
    Nothing(eval(e).value);
  }

  predicate IsArithmetic(e: string, eval: Evaluator) {
    && e != "" && StartsValue(e[0]) && IsExpression(e, 0) && !IsBlank(e[|e| - 1])
    && !IsPlainNumber(e) && eval(e).Some?
  }

  /** From the colon of a member to the end of its object. */
  lemma MemberValueIsRepaired(e: string, ctx: Context, eval: Evaluator)
    requires IsArithmetic(e, eval) && ctx.prev == '"'
    ensures RepairedFrom(":" + (" " + (e + "}")), ctx, eval) == ":" + (" " + (eval(e).value + "}"))
  {
    CharacterIsCopied(':', " " + (e + "}"), ctx, eval);
    CharacterIsCopied(' ', e + "}", ctx.(prev := ':'), eval);
    ExpressionIsReplaced(e, "}", ctx.(prev := ':'), eval);
    LastBrace(ctx.(prev := '0'), eval);
  }

  /** The arithmetic a model writes as the value of a member is evaluated. */
  lemma MemberIsRepaired(key: string, e: string, eval: Evaluator)
    requires forall k :: 0 <= k < |key| ==> key[k] != '"' && key[k] != '\\'
    requires IsArithmetic(e, eval)
    ensures Repaired("{" + (Quoted(key) + (":" + (" " + (e + "}")))), eval) ==
            "{" + (Quoted(key) + (":" + (" " + (eval(e).value + "}"))))
  {
    var value := ":" + (" " + (e + "}"));
    var ctx := After(Copied("{"), START);
    CharacterIsCopied('{', Quoted(key) + value, START, eval);
    LiteralIsCopied(key, value, ctx, eval);
    MemberValueIsRepaired(e, ctx.(prev := '"'), eval);
  }

  lemma LastBrace(ctx: Context, eval: Evaluator)
    ensures RepairedFrom("}", ctx, eval) == "}"
  {
    Nothing("}");
    CharacterIsCopied('}', "", ctx, eval);
  }
}
