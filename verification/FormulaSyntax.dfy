/**
 The formula language of the document checks (internal/checkexpr/parse.go): trees, tokens,
 and the parser as a function of the tokens.
 */
module FormulaSyntax {
  import opened Util

  datatype BinOp = OrOp | AndOp | Eq | Ne | Lt | Le | Gt | Ge | Add | Sub | Mul | Div

  /** A formula, without the positions kept for error messages. */
  datatype Tree =
    | Num(x: real)
    | Str(s: string)
    | Bool(b: bool)
    | Ident(name: string)
    | Member(name: string, field: string)
    | Call(name: string, args: seq<Tree>)
    | Neg(arg: Tree)
    | Not(arg: Tree)
    | Bin(op: BinOp, l: Tree, r: Tree)

  datatype Token =
    | NumTok(text: string)
    | StrTok(text: string)
    | IdentTok(text: string)
    | OpTok(text: string)
    | LParen | RParen | Comma | Dot | Eof

  /** The Go library: comparison without regard to case, upper case, number literals. */
  datatype Words = Words(fold: (string, string) -> bool, upper: string -> string, number: string -> Option<real>)

  /** Only the last token is the end mark; the lexer always ends with one. */
  predicate Lexed(toks: seq<Token>) {
    && toks != [] && toks[|toks| - 1] == Eof
    && forall k :: 0 <= k < |toks| - 1 ==> toks[k] != Eof
  }

  // ----------------------------------------------------------------- what tokens mean

  predicate IsWord(w: Words, t: Token, a: string, b: string) {
    t.IdentTok? && (w.fold(t.text, a) || w.fold(t.text, b))
  }

  predicate IsOr(w: Words, t: Token) {
    IsWord(w, t, "OR", "HO\U{1EB6}C") || t == OpTok("||")
  }

  predicate IsAnd(w: Words, t: Token) {
    IsWord(w, t, "AND", "V\U{00C0}") || t == OpTok("&&")
  }

  predicate IsNot(w: Words, t: Token) {
    IsWord(w, t, "NOT", "KH\U{00D4}NG") || t == OpTok("!")
  }

  predicate IsTrue(w: Words, t: Token) {
    IsWord(w, t, "TRUE", "\U{0110}\U{00DA}NG")
  }

  predicate IsFalse(w: Words, t: Token) {
    IsWord(w, t, "FALSE", "SAI")
  }

  function Comparison(t: Token): Option<BinOp> {
    if !t.OpTok? then None
    else if t.text == "=" || t.text == "==" then Some(Eq)
    else if t.text == "!=" || t.text == "<>" then Some(Ne)
    else if t.text == "<" then Some(Lt)
    else if t.text == "<=" then Some(Le)
    else if t.text == ">" then Some(Gt)
    else if t.text == ">=" then Some(Ge)
    else None
  }

  /** The levels of precedence, as the parser's functions descend. */
  const OR_LEVEL: nat := 0
  const AND_LEVEL: nat := 1
  const NOT_LEVEL: nat := 2
  const CMP_LEVEL: nat := 3
  const ADD_LEVEL: nat := 4
  const MUL_LEVEL: nat := 5
  const UNARY_LEVEL: nat := 6
  const PRIMARY_LEVEL: nat := 7

  function LevelOf(op: BinOp): nat {
    match op
    case OrOp => OR_LEVEL
    case AndOp => AND_LEVEL
    case Add => ADD_LEVEL
    case Sub => ADD_LEVEL
    case Mul => MUL_LEVEL
    case Div => MUL_LEVEL
    case _ => CMP_LEVEL
  }

  /** The operator of a level that a token stands for. */
  function OpAt(w: Words, t: Token, level: nat): Option<BinOp> {
    if level == OR_LEVEL then if IsOr(w, t) then Some(OrOp) else None
    else if level == AND_LEVEL then if IsAnd(w, t) then Some(AndOp) else None
    else if level == CMP_LEVEL then Comparison(t)
    else if level == ADD_LEVEL then
      if t == OpTok("+") then Some(Add) else if t == OpTok("-") then Some(Sub) else None
    else if level == MUL_LEVEL then
      if t == OpTok("*") then Some(Mul) else if t == OpTok("/") then Some(Div) else None
    else None
  }

  /** Operators that may be repeated on their level, and group to the left. */
  predicate IsChain(level: nat) {
    level == OR_LEVEL || level == AND_LEVEL || level == ADD_LEVEL || level == MUL_LEVEL
  }

  // ----------------------------------------------------------------------- the parser

  /** What a parsing function gives: a tree and the cursor behind it. */
  type Parse = Option<(Tree, nat)>

  /** The cursor has moved on, and not past the end mark. */
  predicate Advances(p: Parse, toks: seq<Token>, i: nat) {
    p.Some? ==> i < p.value.1 < |toks|
  }

  /** A tree of the given level from the cursor on. */
  function Parsed(w: Words, toks: seq<Token>, i: nat, level: nat): (p: Parse)
    requires Lexed(toks) && i < |toks| && level <= PRIMARY_LEVEL
    ensures Advances(p, toks, i)
    decreases |toks| - i, 30 - 3 * level
  {
    if level == NOT_LEVEL then ParsedNot(w, toks, i)
    else if level == CMP_LEVEL then ParsedCmp(w, toks, i)
    else if level == UNARY_LEVEL then ParsedUnary(w, toks, i)
    else if level == PRIMARY_LEVEL then ParsedPrimary(w, toks, i)
    else
      var l := Parsed(w, toks, i, level + 1);
      if l.None? then None else ParsedRest(w, toks, l.value.0, l.value.1, level)
  }

  /** The operators of a chain and their right operands, after the left operand `l`. */
  function ParsedRest(w: Words, toks: seq<Token>, l: Tree, i: nat, level: nat): (p: Parse)
    requires Lexed(toks) && i < |toks| && IsChain(level)
    ensures p.Some? ==> i <= p.value.1 < |toks|
    decreases |toks| - i, 0
  {
    var op := OpAt(w, toks[i], level);
    if op.None? then Some((l, i)) else
    var r := Parsed(w, toks, i + 1, level + 1);
    if r.None? then None else ParsedRest(w, toks, Bin(op.value, l, r.value.0), r.value.1, level)
  }

  function ParsedNot(w: Words, toks: seq<Token>, i: nat): (p: Parse)
    requires Lexed(toks) && i < |toks|
    ensures Advances(p, toks, i)
    decreases |toks| - i, 23
  {
    if IsNot(w, toks[i]) then
      var x := Parsed(w, toks, i + 1, NOT_LEVEL);
      if x.None? then None else Some((Not(x.value.0), x.value.1))
    else Parsed(w, toks, i, CMP_LEVEL)
  }

  /** A comparison does not chain. */
  function ParsedCmp(w: Words, toks: seq<Token>, i: nat): (p: Parse)
    requires Lexed(toks) && i < |toks|
    ensures Advances(p, toks, i)
    decreases |toks| - i, 20
  {
    var l := Parsed(w, toks, i, ADD_LEVEL);
    if l.None? then None else
    var op := Comparison(toks[l.value.1]);
    if op.None? then l else
    var r := Parsed(w, toks, l.value.1 + 1, ADD_LEVEL);
    if r.None? then None else Some((Bin(op.value, l.value.0, r.value.0), r.value.1))
  }

  function ParsedUnary(w: Words, toks: seq<Token>, i: nat): (p: Parse)
    requires Lexed(toks) && i < |toks|
    ensures Advances(p, toks, i)
    decreases |toks| - i, 11
  {
    if toks[i] == OpTok("-") then
      var x := Parsed(w, toks, i + 1, UNARY_LEVEL);
      if x.None? then None else Some((Neg(x.value.0), x.value.1))
    else Parsed(w, toks, i, PRIMARY_LEVEL)
  }

  function ParsedPrimary(w: Words, toks: seq<Token>, i: nat): (p: Parse)
    requires Lexed(toks) && i < |toks|
    ensures Advances(p, toks, i)
    decreases |toks| - i, 8
  {
    match toks[i]
    case NumTok(text) => if w.number(text).None? then None else Some((Num(w.number(text).value), i + 1))
    case StrTok(text) => Some((Str(text), i + 1))
    case LParen =>
      var x := Parsed(w, toks, i + 1, OR_LEVEL);
      if x.None? || toks[x.value.1] != RParen then None else Some((x.value.0, x.value.1 + 1))
    case IdentTok(_) => ParsedName(w, toks, i)
    case _ => None
  }

  function ParsedName(w: Words, toks: seq<Token>, i: nat): (p: Parse)
    requires Lexed(toks) && i < |toks| && toks[i].IdentTok?
    ensures Advances(p, toks, i)
    decreases |toks| - i, 7
  {
    var name := toks[i].text;
    if IsTrue(w, toks[i]) then Some((Bool(true), i + 1))
    else if IsFalse(w, toks[i]) then Some((Bool(false), i + 1))
    else if toks[i + 1] == LParen then
      var args := if toks[i + 2] == RParen then Some(([], i + 2)) else ParsedArgs(w, toks, i + 2);
      if args.None? || toks[args.value.1] != RParen then None
      else Some((Call(w.upper(name), args.value.0), args.value.1 + 1))
    else if toks[i + 1] == Dot then
      if toks[i + 2].IdentTok? || toks[i + 2].NumTok? then Some((Member(name, toks[i + 2].text), i + 3)) else None
    else Some((Ident(name), i + 1))
  }

  /** Arguments, separated by commas; at least one. */
  function ParsedArgs(w: Words, toks: seq<Token>, i: nat): (p: Option<(seq<Tree>, nat)>)
    requires Lexed(toks) && i < |toks|
    ensures p.Some? ==> i < p.value.1 < |toks|
    decreases |toks| - i, 31
  {
    var a := Parsed(w, toks, i, OR_LEVEL);
    if a.None? then None
    else if toks[a.value.1] == Comma then
      var rest := ParsedArgs(w, toks, a.value.1 + 1);
      if rest.None? then None else Some(([a.value.0] + rest.value.0, rest.value.1))
    else Some(([a.value.0], a.value.1))
  }

  /** A whole formula: nothing may be left over. */
  function ParsedFormula(w: Words, toks: seq<Token>): Option<Tree>
    requires Lexed(toks)
  {
    var p := Parsed(w, toks, 0, OR_LEVEL);
    if p.None? || toks[p.value.1] != Eof then None else Some(p.value.0)
  }
}
