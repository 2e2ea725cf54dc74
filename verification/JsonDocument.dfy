/**
 The repair of whole JSON documents (internal/agent/jsonrepair.go): in a document of any
 depth, written with any blanks, exactly the arithmetic that stands where a value belongs is
 evaluated; keys, strings and words are left alone.
 */
module JsonDocument {
  import opened Util
  import opened Sequences
  import opened Text
  import opened JsonRepair

  /** A document as it is written. A calculation is what consists of the characters of
      arithmetic, also a plain number; a word is anything else that is no string, as true. */
  datatype Doc =
    | Str(chars: seq<StringChar>)
    | Calc(text: string)
    | Word(text: string)
    | Array(gap: string, items: seq<Doc>)
    | Object(gap: string, members: seq<Member>)
    | Padded(front: string, doc: Doc, back: string)

  datatype Member = Member(front: string, key: seq<StringChar>, mid: string, value: Doc)

  predicate Blanks(s: string) {
    forall k :: 0 <= k < |s| ==> s[k] == ' ' || s[k] == '\t' || s[k] == '\r' || s[k] == '\n'
  }

  /** Every parenthesis is closed, `depth` of them being open before. */
  predicate Balanced(e: string, depth: nat) {
    if e == "" then depth == 0
    else if e[0] == '(' then Balanced(e[1..], depth + 1)
    else if e[0] == ')' then depth > 0 && Balanced(e[1..], depth - 1)
    else Balanced(e[1..], depth)
  }

  predicate BeginsCalc(c: char) {
    c in "0123456789-+(."
  }

  predicate IsCalcChar(c: char) {
    c in "0123456789+-*/%^().eE \t\r\n"
  }

  predicate IsCalc(e: string) {
    && e != "" && BeginsCalc(e[0]) && e[|e| - 1] !in " \t\r\n" && Balanced(e, 0)
    && forall k :: 0 <= k < |e| ==> IsCalcChar(e[k])
  }

  predicate IsWordChar(c: char) {
    c !in " \t\r\n{}[],:\""
  }

  predicate IsWord(s: string) {
    s != "" && !BeginsCalc(s[0]) && forall k :: 0 <= k < |s| ==> IsWordChar(s[k])
  }

  predicate IsDoc(d: Doc) {
    match d
    case Str(chars) => IsString(chars)
    case Calc(text) => IsCalc(text)
    case Word(text) => IsWord(text)
    case Array(gap, items) => Blanks(gap) && forall k :: 0 <= k < |items| ==> IsDoc(items[k])
    case Object(gap, members) => Blanks(gap) && forall k :: 0 <= k < |members| ==> IsMember(members[k])
    case Padded(front, doc, back) => Blanks(front) && IsDoc(doc) && Blanks(back)
  }

  predicate IsMember(m: Member) {
    Blanks(m.front) && IsString(m.key) && Blanks(m.mid) && IsDoc(m.value)
  }

  function Literal(chars: seq<StringChar>): string {
    "\"" + (InQuotes(chars) + "\"")
  }

  /** The text of a document, followed by `tail`. */
  function Put(d: Doc, tail: string): string
    decreases d, 0
  {
    match d
    case Str(chars) => Literal(chars) + tail
    case Calc(text) => text + tail
    case Word(text) => text + tail
    case Array(gap, items) => "[" + (gap + PutItems(items, "]" + tail))
    case Object(gap, members) => "{" + (gap + PutMembers(members, "}" + tail))
    case Padded(front, doc, back) => front + Put(doc, back + tail)
  }

  function PutItems(items: seq<Doc>, tail: string): string
    decreases items, 1
  {
    if items == [] then tail
    else if |items| == 1 then Put(items[0], tail)
    else Put(items[0], "," + PutItems(items[1..], tail))
  }

  function PutMember(m: Member, tail: string): string
    decreases m, 1
  {
    m.front + (Literal(m.key) + (m.mid + (":" + Put(m.value, tail))))
  }

  function PutMembers(members: seq<Member>, tail: string): string
    decreases members, 2
  {
    if members == [] then tail
    else if |members| == 1 then PutMember(members[0], tail)
    else PutMember(members[0], "," + PutMembers(members[1..], tail))
  }

  /** The document with its calculations evaluated, where they denote a number and are none. */
  function Evaluated(d: Doc, eval: Evaluator): Doc
    decreases d, 0
  {
    match d
    case Calc(text) => if !IsPlainNumber(text) && eval(text).Some? then Calc(eval(text).value) else d
    case Array(gap, items) => Array(gap, EvaluatedItems(items, eval))
    case Object(gap, members) => Object(gap, EvaluatedMembers(members, eval))
    case Padded(front, doc, back) => Padded(front, Evaluated(doc, eval), back)
    case _ => d
  }

  function EvaluatedItems(items: seq<Doc>, eval: Evaluator): (r: seq<Doc>)
    ensures |r| == |items|
    decreases items, 1
  {
    if items == [] then [] else [Evaluated(items[0], eval)] + EvaluatedItems(items[1..], eval)
  }

  function EvaluatedMembers(members: seq<Member>, eval: Evaluator): (r: seq<Member>)
    ensures |r| == |members|
    decreases members, 1
  {
    if members == [] then [] else
    var m := members[0];
    [m.(value := Evaluated(m.value, eval))] + EvaluatedMembers(members[1..], eval)
  }

  // --------------------------------------------------------------------- what follows

  /** Behind a value: blanks, and then a comma, a closing bracket or the end. */
  predicate Ends(tail: string) {
    tail == "" || ClosesValue(tail[0]) || (IsBlank(tail[0]) && Ends(tail[1..]))
  }

  lemma {:induction false} BlanksCopied(blanks: string, t: string, ctx: Context, eval: Evaluator)
    requires Blanks(blanks)
    ensures RepairedFrom(blanks + t, ctx, eval) == blanks + RepairedFrom(t, ctx, eval)
  {
    if blanks == "" {
      Nothing(t);
      Nothing(RepairedFrom(t, ctx, eval));
    } else {
      BlanksCopied(blanks[1..], t, ctx, eval);
      CharacterIsCopied(blanks[0], blanks[1..] + t, ctx, eval);
      Rejoin([blanks[0]], blanks[1..], t);
      Rejoin([blanks[0]], blanks[1..], RepairedFrom(t, ctx, eval));
      HeadTail(blanks);
    }
  }

  lemma {:induction false} BlanksThenEnds(blanks: string, tail: string)
    requires Blanks(blanks) && Ends(tail)
    ensures Ends(blanks + tail)
  {
    if blanks == "" {
      Nothing(tail);
    } else {
      assert (blanks + tail)[1..] == blanks[1..] + tail;
      BlanksThenEnds(blanks[1..], tail);
    }
  }

  /** What ends a value does not depend on the value's last character. */
  lemma {:induction false} TailIsAlike(tail: string, stack: string, p: char, q: char, eval: Evaluator)
    requires Ends(tail)
    ensures RepairedFrom(tail, Context(stack, p), eval) == RepairedFrom(tail, Context(stack, q), eval)
  {
    if tail != "" {
      HeadTail(tail);
      CharacterIsCopied(tail[0], tail[1..], Context(stack, p), eval);
      CharacterIsCopied(tail[0], tail[1..], Context(stack, q), eval);
      if !ClosesValue(tail[0]) {
        TailIsAlike(tail[1..], stack, p, q, eval);
      }
    }
  }

  // ------------------------------------------------------------------- single values

  lemma {:induction false} LiteralEndsAt(chars: seq<StringChar>, t: string)
    requires IsString(chars)
    ensures LiteralRest(InQuotes(chars) + ("\"" + t)) == |InQuotes(chars)| + 1
  {
    if chars == [] {
      Nothing("\"" + t);
    } else {
      var first := match chars[0] case Bare(c) => [c] case Escaped(c) => ['\\', c];
      var rest := InQuotes(chars[1..]) + ("\"" + t);
      LiteralEndsAt(chars[1..], t);
      Rejoin(first, InQuotes(chars[1..]), "\"" + t);
      Parts(first, rest);
      assert (first + rest)[0] == first[0];
    }
  }

  lemma LiteralCopied(chars: seq<StringChar>, t: string, ctx: Context, eval: Evaluator)
    requires IsString(chars)
    ensures RepairedFrom(Literal(chars) + t, ctx, eval) == Literal(chars) + RepairedFrom(t, ctx.(prev := '"'), eval)
  {
    var u := Literal(chars) + t;
    Rejoin("\"", InQuotes(chars) + "\"", t);
    Rejoin(InQuotes(chars), "\"", t);
    assert u[0] == '"' && u[1..] == InQuotes(chars) + ("\"" + t);
    LiteralEndsAt(chars, t);
    Parts(Literal(chars), t);
    PieceIsCopied(Literal(chars), t, ctx, eval);
  }

  lemma WordCharCopied(c: char, t: string, ctx: Context, eval: Evaluator)
    requires IsWordChar(c) && !(StartsValue(c) && ValuePosition(ctx))
    ensures RepairedFrom([c] + t, ctx, eval) == [c] + RepairedFrom(t, ctx.(prev := c), eval)
    ensures !ValuePosition(ctx.(prev := c))
  {
    CharacterIsCopied(c, t, ctx, eval);
  }

  lemma {:induction false} WordCopied(s: string, t: string, ctx: Context, eval: Evaluator) returns (p: char)
    requires forall k :: 0 <= k < |s| ==> IsWordChar(s[k])
    requires s != "" ==> !(StartsValue(s[0]) && ValuePosition(ctx))
    ensures RepairedFrom(s + t, ctx, eval) == s + RepairedFrom(t, Context(ctx.stack, p), eval)
  {
    if s == "" {
      p := ctx.prev;
      Nothing(t);
      Nothing(RepairedFrom(t, ctx, eval));
    } else {
      Rejoin([s[0]], s[1..], t);
      HeadTail(s);
      WordCharCopied(s[0], s[1..] + t, ctx, eval);
      p := WordCopied(s[1..], t, ctx.(prev := s[0]), eval);
      Rejoin([s[0]], s[1..], RepairedFrom(t, Context(ctx.stack, p), eval));
    }
  }

  lemma WordBegins(c: char)
    ensures StartsValue(c) <==> BeginsCalc(c)
  {
  }

  /** The blanks in front of what ends a value. */
  function Lead(tail: string): (n: nat)
    requires Ends(tail)
    ensures n <= |tail| && Blanks(tail[..n]) && Ends(tail[n..])
    ensures tail[n..] == "" || ClosesValue(tail[n..][0])
  {
    if tail == "" || ClosesValue(tail[0]) then 0 else
    var n := Lead(tail[1..]);
    assert tail[1..][n..] == tail[1 + n..];
    assert forall k :: 0 < k < 1 + n ==> tail[k] == tail[1..][..n][k - 1];
    1 + n
  }

  lemma CalcChars(c: char)
    requires IsCalcChar(c)
    ensures IsExprChar(c)
  {
  }

  lemma {:induction false} CalcIsExpression(e: string, depth: nat)
    requires Balanced(e, depth) && forall k :: 0 <= k < |e| ==> IsCalcChar(e[k])
    ensures IsExpression(e, depth)
  {
    if e != "" {
      CalcChars(e[0]);
      CalcIsExpression(e[1..], if e[0] == '(' then depth + 1 else if e[0] == ')' then depth - 1 else depth);
    }
  }

  lemma {:induction false} ExpressionThenBlanks(e: string, blanks: string, depth: nat)
    requires IsExpression(e, depth) && Blanks(blanks)
    ensures IsExpression(e + blanks, depth)
  {
    if e != "" {
      assert (e + blanks)[0] == e[0] && (e + blanks)[1..] == e[1..] + blanks;
      ExpressionThenBlanks(e[1..], blanks, if e[0] == '(' then depth + 1 else if e[0] == ')' then depth - 1 else depth);
    } else if blanks != "" {
      Nothing(blanks);
      ExpressionThenBlanks("", blanks[1..], depth);
      Nothing(blanks[1..]);
    } else {
      Nothing(blanks);
    }
  }

  function Result(e: string, eval: Evaluator): string {
    if !IsPlainNumber(e) && eval(e).Some? then eval(e).value else e
  }

  lemma CalcScanned(e: string, blanks: string, rest: string, ctx: Context)
    requires IsCalc(e) && Blanks(blanks) && ValuePosition(ctx) && (rest == "" || ClosesValue(rest[0]))
    ensures NextPiece(e + blanks + rest, ctx) == Value(e + blanks, true)
  {
    var u := e + blanks;
    CalcIsExpression(e, 0);
    ExpressionThenBlanks(e, blanks, 0);
    ScanReadsExpression(u, rest, 0);
    Parts(u, rest);
    WordBegins(e[0]);
    assert (u + rest)[0] == e[0] && e[0] != '"';
  }

  lemma CalcFixed(e: string, blanks: string, eval: Evaluator)
    requires IsCalc(e) && Blanks(blanks)
    ensures Fixed(Value(e + blanks, true), eval).text == Result(e, eval) + blanks
  {
    var u := e + blanks;
    assert u[|e| - 1] == e[|e| - 1];
    TrimmedLengthUnique(u, |e|);
    Parts(e, blanks);
  }

  lemma CalcReplaced(e: string, tail: string, ctx: Context, eval: Evaluator)
    requires IsCalc(e) && ValuePosition(ctx) && Ends(tail)
    ensures RepairedFrom(e + tail, ctx, eval) == Result(e, eval) + RepairedFrom(tail, ctx.(prev := '0'), eval)
  {
    var blanks, rest := tail[..Lead(tail)], tail[Lead(tail)..];
    SplitAt(tail, Lead(tail));
    Rejoin(e, blanks, rest);
    CalcScanned(e, blanks, rest, ctx);
    CalcFixed(e, blanks, eval);
    LoopStep(e + blanks + rest, ctx, eval);
    Parts(e + blanks, rest);
    BlanksCopied(blanks, rest, ctx.(prev := '0'), eval);
    Rejoin(Result(e, eval), blanks, RepairedFrom(rest, ctx.(prev := '0'), eval));
  }

  // ------------------------------------------------------------------- whole documents

  /** What a document is repaired to, with what follows it. */
  ghost predicate DocRepaired(d: Doc, tail: string, ctx: Context, eval: Evaluator) {
    RepairedFrom(Put(d, tail), ctx, eval)
    == Put(Evaluated(d, eval), RepairedFrom(tail, Context(ctx.stack, '0'), eval))
  }

  lemma {:induction false} RepairsDoc(d: Doc, tail: string, ctx: Context, eval: Evaluator)
    requires IsDoc(d) && Ends(tail) && ValuePosition(ctx)
    ensures DocRepaired(d, tail, ctx, eval)
    decreases d, 3
  {
    match d
    case Str(chars) =>
      LiteralCopied(chars, tail, ctx, eval);
      TailIsAlike(tail, ctx.stack, '"', '0', eval);
    case Calc(text) => CalcReplaced(text, tail, ctx, eval);
    case Word(text) =>
      WordBegins(text[0]);
      var p := WordCopied(text, tail, ctx, eval);
      TailIsAlike(tail, ctx.stack, p, '0', eval);
    case Array(_, _) => RepairsArray(d, tail, ctx, eval);
    case Object(_, _) => RepairsObject(d, tail, ctx, eval);
    case Padded(front, doc, back) =>
      BlanksThenEnds(back, tail);
      RepairsDoc(doc, back + tail, ctx, eval);
      BlanksCopied(front, Put(doc, back + tail), ctx, eval);
      BlanksCopied(back, tail, Context(ctx.stack, '0'), eval);
  }

  /** A bracket and the blanks behind it. */
  lemma OpeningCopied(c: char, gap: string, t: string, ctx: Context, eval: Evaluator)
    requires (c == '[' || c == '{') && Blanks(gap)
    ensures RepairedFrom([c] + (gap + t), ctx, eval)
         == [c] + (gap + RepairedFrom(t, Context(ctx.stack + [c], c), eval))
  {
    CharacterIsCopied(c, gap + t, ctx, eval);
    BlanksCopied(gap, t, Context(ctx.stack + [c], c), eval);
  }

  lemma ClosingCopied(c: char, open: char, tail: string, stack: string, p: char, eval: Evaluator)
    requires (c == ']' || c == '}') && Ends(tail)
    ensures RepairedFrom([c] + tail, Context(stack + [open], p), eval)
         == [c] + RepairedFrom(tail, Context(stack, '0'), eval)
  {
    CharacterIsCopied(c, tail, Context(stack + [open], p), eval);
    Snoc(stack, open);
    TailIsAlike(tail, stack, c, '0', eval);
  }

  lemma {:induction false} RepairsArray(d: Doc, tail: string, ctx: Context, eval: Evaluator)
    requires d.Array? && IsDoc(d) && Ends(tail)
    ensures DocRepaired(d, tail, ctx, eval)
    decreases d, 2
  {
    OpeningCopied('[', d.gap, PutItems(d.items, "]" + tail), ctx, eval);
    RepairsItems(d.items, "]" + tail, ctx.stack, '[', eval);
    ClosingCopied(']', '[', tail, ctx.stack, '0', eval);
  }

  lemma {:induction false} RepairsItems(items: seq<Doc>, tail: string, stack: string, p: char, eval: Evaluator)
    requires (forall k :: 0 <= k < |items| ==> IsDoc(items[k])) && Ends(tail) && (p == '[' || p == ',')
    ensures RepairedFrom(PutItems(items, tail), Context(stack + "[", p), eval)
         == PutItems(EvaluatedItems(items, eval), RepairedFrom(tail, Context(stack + "[", '0'), eval))
    decreases items, 1
  {
    if items == [] {
      TailIsAlike(tail, stack + "[", p, '0', eval);
    } else if |items| == 1 {
      RepairsDoc(items[0], tail, Context(stack + "[", p), eval);
      assert EvaluatedItems(items, eval) == [Evaluated(items[0], eval)];
    } else {
      var rest := PutItems(items[1..], tail);
      RepairsDoc(items[0], "," + rest, Context(stack + "[", p), eval);
      CharacterIsCopied(',', rest, Context(stack + "[", '0'), eval);
      RepairsItems(items[1..], tail, stack, ',', eval);
      Cons(Evaluated(items[0], eval), EvaluatedItems(items[1..], eval));
    }
  }

  lemma {:induction false} RepairsObject(d: Doc, tail: string, ctx: Context, eval: Evaluator)
    requires d.Object? && IsDoc(d) && Ends(tail)
    ensures DocRepaired(d, tail, ctx, eval)
    decreases d, 2
  {
    OpeningCopied('{', d.gap, PutMembers(d.members, "}" + tail), ctx, eval);
    RepairsMembers(d.members, "}" + tail, ctx.stack + "{", '{', eval);
    ClosingCopied('}', '{', tail, ctx.stack, '0', eval);
  }

  lemma KeyCopied(front: string, key: seq<StringChar>, mid: string, value: string, ctx: Context, eval: Evaluator)
    requires Blanks(front) && IsString(key) && Blanks(mid)
    ensures RepairedFrom(front + (Literal(key) + (mid + (":" + value))), ctx, eval)
         == front + (Literal(key) + (mid + (":" + RepairedFrom(value, ctx.(prev := ':'), eval))))
  {
    BlanksCopied(front, Literal(key) + (mid + (":" + value)), ctx, eval);
    LiteralCopied(key, mid + (":" + value), ctx, eval);
    BlanksCopied(mid, ":" + value, ctx.(prev := '"'), eval);
    CharacterIsCopied(':', value, ctx.(prev := '"'), eval);
  }

  /** A key is copied, and what stands behind its colon is repaired. */
  lemma {:induction false} RepairsMember(m: Member, tail: string, ctx: Context, eval: Evaluator)
    requires IsMember(m) && Ends(tail)
    ensures RepairedFrom(PutMember(m, tail), ctx, eval)
         == PutMember(m.(value := Evaluated(m.value, eval)), RepairedFrom(tail, Context(ctx.stack, '0'), eval))
    decreases m, 1
  {
    KeyCopied(m.front, m.key, m.mid, Put(m.value, tail), ctx, eval);
    RepairsDoc(m.value, tail, ctx.(prev := ':'), eval);
  }

  lemma {:induction false} RepairsMembers(members: seq<Member>, tail: string, stack: string, p: char, eval: Evaluator)
    requires (forall k :: 0 <= k < |members| ==> IsMember(members[k])) && Ends(tail)
    ensures RepairedFrom(PutMembers(members, tail), Context(stack, p), eval)
         == PutMembers(EvaluatedMembers(members, eval), RepairedFrom(tail, Context(stack, '0'), eval))
    decreases members, 2
  {
    if members == [] {
      TailIsAlike(tail, stack, p, '0', eval);
    } else if |members| == 1 {
      RepairsMember(members[0], tail, Context(stack, p), eval);
      assert EvaluatedMembers(members, eval) == [members[0].(value := Evaluated(members[0].value, eval))];
    } else {
      var rest := PutMembers(members[1..], tail);
      RepairsMember(members[0], "," + rest, Context(stack, p), eval);
      CharacterIsCopied(',', rest, Context(stack, '0'), eval);
      RepairsMembers(members[1..], tail, stack, ',', eval);
      Cons(members[0].(value := Evaluated(members[0].value, eval)), EvaluatedMembers(members[1..], eval));
    }
  }

  /** An object or an array, with blanks around it or not. */
  predicate IsContainer(d: Doc) {
    match d
    case Array(_, _) => true
    case Object(_, _) => true
    case Padded(_, doc, _) => IsContainer(doc)
    case _ => false
  }

  lemma {:induction false} RepairsContainer(d: Doc, tail: string, ctx: Context, eval: Evaluator)
    requires IsDoc(d) && IsContainer(d) && Ends(tail)
    ensures DocRepaired(d, tail, ctx, eval)
  {
    match d
    case Array(_, _) => RepairsArray(d, tail, ctx, eval);
    case Object(_, _) => RepairsObject(d, tail, ctx, eval);
    case Padded(front, doc, back) =>
      BlanksThenEnds(back, tail);
      RepairsContainer(doc, back + tail, ctx, eval);
      BlanksCopied(front, Put(doc, back + tail), ctx, eval);
      BlanksCopied(back, tail, Context(ctx.stack, '0'), eval);
  }

  /** In every document, at any depth, exactly the calculations that are values are evaluated;
      everything else, with all its blanks, stays as it is written. */
  lemma DocumentIsRepaired(d: Doc, eval: Evaluator)
    requires IsDoc(d) && IsContainer(d)
    ensures Repaired(Put(d, ""), eval) == Put(Evaluated(d, eval), "")
  {
    RepairsContainer(d, "", START, eval);
    assert RepairedFrom("", Context("", '0'), eval) == "";
  }
}
