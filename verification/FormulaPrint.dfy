/**
 Printing a formula with only the parentheses that precedence and grouping to the left
 require, and the proof that the parser reads back the same tree.
 */
module FormulaPrint {
  import opened Util
  import opened FormulaSyntax
  import opened Sequences

  /** The spellings a printer uses, among those the parser accepts. */
  datatype Style = Style(op: BinOp -> Token, negation: Token, yes: string, no: string, number: real -> string)

  predicate SpellsOnly(w: Words, t: Token, op: BinOp) {
    && !t.LParen? && !t.Dot? && !IsNot(w, t)
    && forall level: nat :: level <= PRIMARY_LEVEL ==>
         OpAt(w, t, level) == if level == LevelOf(op) then Some(op) else None
  }

  /** The spellings mean what they are used for, and nothing else. */
  ghost predicate Sound(w: Words, style: Style) {
    && (forall op :: SpellsOnly(w, style.op(op), op))
    && IsNot(w, style.negation)
    && IsTrue(w, IdentTok(style.yes)) && !IsNot(w, IdentTok(style.yes))
    && IsFalse(w, IdentTok(style.no)) && !IsTrue(w, IdentTok(style.no)) && !IsNot(w, IdentTok(style.no))
  }

  predicate Reserved(w: Words, name: string) {
    IsNot(w, IdentTok(name)) || IsTrue(w, IdentTok(name)) || IsFalse(w, IdentTok(name))
  }

  /** No name is a reserved word, function names are in upper case, and the numbers can be
      written down. */
  predicate Printable(w: Words, style: Style, t: Tree) {
    match t
    case Num(x) => w.number(style.number(x)) == Some(x)
    case Str(_) => true
    case Bool(_) => true
    case Ident(name) => !Reserved(w, name)
    case Member(name, _) => !Reserved(w, name)
    case Call(name, args) =>
      !Reserved(w, name) && w.upper(name) == name && forall k :: 0 <= k < |args| ==> Printable(w, style, args[k])
    case Neg(x) => Printable(w, style, x)
    case Not(x) => Printable(w, style, x)
    case Bin(_, l, r) => Printable(w, style, l) && Printable(w, style, r)
  }

  /** How tightly a tree binds. */
  function Level(t: Tree): nat {
    match t
    case Bin(op, _, _) => LevelOf(op)
    case Not(_) => NOT_LEVEL
    case Neg(_) => UNARY_LEVEL
    case _ => PRIMARY_LEVEL
  }

  /** The level of the left operand: the same again, where the operator chains. */
  function LeftLevel(op: BinOp): nat {
    if IsChain(LevelOf(op)) then LevelOf(op) else LevelOf(op) + 1
  }

  /** A tree where only trees of at least this level may stand without parentheses. */
  function Print(style: Style, t: Tree, level: nat): (toks: seq<Token>)
    ensures toks != []
    decreases t, 1
  {
    if Level(t) < level then [LParen] + PrintBare(style, t) + [RParen] else PrintBare(style, t)
  }

  function PrintBare(style: Style, t: Tree): (toks: seq<Token>)
    ensures toks != []
    decreases t, 0
  {
    match t
    case Num(x) => [NumTok(style.number(x))]
    case Str(s) => [StrTok(s)]
    case Bool(b) => [IdentTok(if b then style.yes else style.no)]
    case Ident(name) => [IdentTok(name)]
    case Member(name, field) => [IdentTok(name), Dot, IdentTok(field)]
    case Call(name, args) => [IdentTok(name), LParen] + PrintArgs(style, args) + [RParen]
    case Neg(x) => [OpTok("-")] + Print(style, x, UNARY_LEVEL)
    case Not(x) => [style.negation] + Print(style, x, NOT_LEVEL)
    case Bin(op, l, r) => Print(style, l, LeftLevel(op)) + [style.op(op)] + Print(style, r, LevelOf(op) + 1)
  }

  function PrintArgs(style: Style, args: seq<Tree>): seq<Token>
    decreases args, 2
  {
    if args == [] then []
    else if |args| == 1 then Print(style, args[0], OR_LEVEL)
    else Print(style, args[0], OR_LEVEL) + [Comma] + PrintArgs(style, args[1..])
  }

  // -------------------------------------------------------------------- reading back

  /** `p` stands in the tokens from `i` to `j`, and something follows it. */
  predicate Stands(toks: seq<Token>, i: nat, p: seq<Token>, j: nat) {
    i + |p| == j < |toks| && toks[i..j] == p
  }

  lemma StandsInParts(toks: seq<Token>, i: nat, a: seq<Token>, k: nat, b: seq<Token>, j: nat)
    requires Stands(toks, i, a + b, j) && b != [] && k == i + |a|
    ensures Stands(toks, i, a, k) && Stands(toks, k, b, j) && toks[k] == b[0]
  {
    assert toks[i..j][..|a|] == toks[i..k];
    assert toks[i..j][|a|..] == toks[k..j];
    assert toks[i..j][|a|] == toks[k];
    assert (a + b)[..|a|] == a && (a + b)[|a|..] == b;
  }

  lemma StandsHead(toks: seq<Token>, i: nat, a: Token, b: seq<Token>, j: nat)
    requires Stands(toks, i, [a] + b, j)
    ensures i + 1 <= j && toks[i] == a && Stands(toks, i + 1, b, j)
  {
    assert toks[i..j][0] == toks[i];
    assert toks[i..j][1..] == toks[i + 1..j];
    assert ([a] + b)[1..] == b;
  }

  /** The token cannot carry on an expression of this level or a tighter one. */
  predicate Ends(w: Words, t: Token, level: nat) {
    !t.LParen? && !t.Dot? && forall k: nat :: level <= k <= PRIMARY_LEVEL ==> OpAt(w, t, k) == None
  }

  lemma ClosersEnd(w: Words, t: Token, level: nat)
    requires t == RParen || t == Comma || t == Eof
    ensures Ends(w, t, level)
  {
  }

  lemma OperatorsEnd(w: Words, t: Token, op: BinOp)
    requires SpellsOnly(w, t, op)
    ensures Ends(w, t, LevelOf(op) + 1)
  {
  }

  /** An expression that does not begin with the prefix of this level is read on the next. */
  predicate NoPrefix(w: Words, t: Token, level: nat) {
    (level == NOT_LEVEL ==> !IsNot(w, t)) && (level == UNARY_LEVEL ==> t != OpTok("-"))
  }

  lemma Descend(w: Words, toks: seq<Token>, i: nat, level: nat, t: Tree, j: nat)
    requires Lexed(toks) && i < |toks| && level < PRIMARY_LEVEL && NoPrefix(w, toks[i], level)
    requires Parsed(w, toks, i, level + 1) == Some((t, j))
    requires OpAt(w, toks[j], level) == None
    ensures Parsed(w, toks, i, level) == Some((t, j))
  {
  }

  lemma ParenStep(w: Words, toks: seq<Token>, i: nat, t: Tree, j: nat)
    requires Lexed(toks) && i + 1 < |toks| && toks[i] == LParen
    requires Parsed(w, toks, i + 1, OR_LEVEL) == Some((t, j)) && toks[j] == RParen
    ensures Parsed(w, toks, i, PRIMARY_LEVEL) == Some((t, j + 1))
  {
  }

  lemma RestStep(w: Words, toks: seq<Token>, l: Tree, op: BinOp, r: Tree, i: nat, j: nat)
    requires Lexed(toks) && i + 1 < |toks| && IsChain(LevelOf(op))
    requires OpAt(w, toks[i], LevelOf(op)) == Some(op)
    requires Parsed(w, toks, i + 1, LevelOf(op) + 1) == Some((r, j))
    ensures ParsedRest(w, toks, l, i, LevelOf(op)) == ParsedRest(w, toks, Bin(op, l, r), j, LevelOf(op))
  {
  }

  lemma CallStep(w: Words, toks: seq<Token>, i: nat, name: string, args: seq<Tree>, j: nat)
    requires Lexed(toks) && i + 2 < |toks| && toks[i] == IdentTok(name) && toks[i + 1] == LParen
    requires !Reserved(w, name) && j < |toks| && toks[j] == RParen
    requires if args == [] then j == i + 2 else toks[i + 2] != RParen && ParsedArgs(w, toks, i + 2) == Some((args, j))
    ensures Parsed(w, toks, i, PRIMARY_LEVEL) == Some((Call(w.upper(name), args), j + 1))
  {
    assert Parsed(w, toks, i, PRIMARY_LEVEL) == ParsedPrimary(w, toks, i) == ParsedName(w, toks, i);
  }

  lemma NameStep(w: Words, toks: seq<Token>, i: nat, name: string)
    requires Lexed(toks) && i + 1 < |toks| && toks[i] == IdentTok(name) && !Reserved(w, name)
    requires toks[i + 1] != LParen
    ensures toks[i + 1] != Dot ==> Parsed(w, toks, i, PRIMARY_LEVEL) == Some((Ident(name), i + 1))
    ensures toks[i + 1] == Dot && toks[i + 2].IdentTok? ==>
              Parsed(w, toks, i, PRIMARY_LEVEL) == Some((Member(name, toks[i + 2].text), i + 3))
  {
    assert Parsed(w, toks, i, PRIMARY_LEVEL) == ParsedPrimary(w, toks, i) == ParsedName(w, toks, i);
  }

  lemma ArgsStep(w: Words, toks: seq<Token>, i: nat, a: Tree, j: nat, args: seq<Tree>, k: nat)
    requires Lexed(toks) && i < |toks|
    requires Parsed(w, toks, i, OR_LEVEL) == Some((a, j)) && toks[j] == Comma
    requires ParsedArgs(w, toks, j + 1) == Some((args, k))
    ensures ParsedArgs(w, toks, i) == Some(([a] + args, k))
  {
  }

  /** What a printed tree can begin with. */
  lemma {:induction false} FirstToken(w: Words, style: Style, t: Tree, level: nat)
    requires Sound(w, style) && Printable(w, style, t)
    ensures level > NOT_LEVEL ==> !IsNot(w, Print(style, t, level)[0])
    ensures level > UNARY_LEVEL ==> Print(style, t, level)[0] != OpTok("-")
    decreases t
  {
    if Level(t) >= level > NOT_LEVEL && t.Bin? {
      FirstToken(w, style, t.l, LeftLevel(t.op));
    }
  }

  /** No printed tree begins with a comparison. */
  lemma {:induction false} FirstIsNoComparison(w: Words, style: Style, t: Tree, level: nat)
    requires Sound(w, style)
    ensures var first := Print(style, t, level)[0]; first.OpTok? ==> first.text == "-" || first.text == "!"
    decreases t
  {
    if Level(t) >= level && t.Bin? {
      FirstIsNoComparison(w, style, t.l, LeftLevel(t.op));
    }
  }

  function Rank(t: Tree, level: nat): nat
    requires level <= PRIMARY_LEVEL
  {
    if Level(t) < level then 20 - level else Level(t) - level
  }

  /** What every reading starts from. */
  ghost predicate Given(w: Words, style: Style, toks: seq<Token>, t: Tree) {
    Lexed(toks) && Sound(w, style) && Printable(w, style, t)
  }

  /** A printed tree is read back, and the cursor stands right behind it. */
  lemma {:induction false} ReadsBack(w: Words, style: Style, toks: seq<Token>, i: nat, t: Tree, level: nat, j: nat)
    requires Given(w, style, toks, t) && level <= PRIMARY_LEVEL
    requires Stands(toks, i, Print(style, t, level), j) && Ends(w, toks[j], level)
    ensures Parsed(w, toks, i, level) == Some((t, j))
    decreases t, 10 + 2 * Rank(t, level)
  {
    if Level(t) == level {
      if level == PRIMARY_LEVEL {
        ReadsPrimary(w, style, toks, i, t, j);
      } else if t.Bin? && IsChain(level) {
        ReadsRest(w, style, toks, i, t, j);
        assert OpAt(w, toks[j], level) == None;
      } else if t.Bin? {
        ReadsComparison(w, style, toks, i, t, j);
      } else {
        ReadsPrefix(w, style, toks, i, t, j);
      }
    } else if level < PRIMARY_LEVEL {
      ReadsLooser(w, style, toks, i, t, level, j);
    } else {
      ReadsParenthesized(w, style, toks, i, t, j);
    }
  }

  /** On a level that is not its own a tree is read by the next. */
  lemma {:induction false} ReadsLooser(w: Words, style: Style, toks: seq<Token>, i: nat, t: Tree, level: nat, j: nat)
    requires Given(w, style, toks, t) && level < PRIMARY_LEVEL && level != Level(t)
    requires Stands(toks, i, Print(style, t, level), j) && Ends(w, toks[j], level)
    ensures Parsed(w, toks, i, level) == Some((t, j))
    decreases t, 9 + 2 * Rank(t, level)
  {
    ReadsBack(w, style, toks, i, t, level + 1, j);
    FirstToken(w, style, t, level + 1);
    assert toks[i] == toks[i..j][0];
    Descend(w, toks, i, level, t, j);
  }

  /** What stands between the parentheses. */
  lemma InsideStands(style: Style, toks: seq<Token>, i: nat, t: Tree, j: nat)
    requires Level(t) < PRIMARY_LEVEL && Stands(toks, i, Print(style, t, PRIMARY_LEVEL), j)
    ensures i + 2 <= j && toks[i] == LParen && toks[j - 1] == RParen
    ensures Stands(toks, i + 1, Print(style, t, OR_LEVEL), j - 1)
  {
    var bare := PrintBare(style, t);
    assert [LParen] + bare + [RParen] == [LParen] + (bare + [RParen]);
    StandsHead(toks, i, LParen, bare + [RParen], j);
    StandsInParts(toks, i + 1, bare, j - 1, [RParen], j);
  }

  lemma {:induction false} ReadsParenthesized(w: Words, style: Style, toks: seq<Token>, i: nat, t: Tree, j: nat)
    requires Given(w, style, toks, t) && Level(t) < PRIMARY_LEVEL
    requires Stands(toks, i, Print(style, t, PRIMARY_LEVEL), j)
    ensures Parsed(w, toks, i, PRIMARY_LEVEL) == Some((t, j))
    decreases t, 30
  {
    InsideStands(style, toks, i, t, j);
    ClosersEnd(w, RParen, OR_LEVEL);
    ReadsBack(w, style, toks, i + 1, t, OR_LEVEL, j - 1);
    ParenStep(w, toks, i, t, j - 1);
  }

  lemma {:induction false} ReadsPrefix(w: Words, style: Style, toks: seq<Token>, i: nat, t: Tree, j: nat)
    requires Given(w, style, toks, t) && (t.Not? || t.Neg?)
    requires Stands(toks, i, PrintBare(style, t), j) && Ends(w, toks[j], Level(t))
    ensures Parsed(w, toks, i, Level(t)) == Some((t, j))
    decreases t, 0
  {
    var prefix := if t.Not? then style.negation else OpTok("-");
    StandsHead(toks, i, prefix, Print(style, t.arg, Level(t)), j);
    ReadsBack(w, style, toks, i + 1, t.arg, Level(t), j);
  }

  /** The two operands of an operator, and the operator between them. */
  lemma OperandsStand(style: Style, toks: seq<Token>, i: nat, t: Tree, j: nat) returns (k: nat)
    requires t.Bin? && Stands(toks, i, PrintBare(style, t), j)
    ensures Stands(toks, i, Print(style, t.l, LeftLevel(t.op)), k) && toks[k] == style.op(t.op)
    ensures Stands(toks, k + 1, Print(style, t.r, LevelOf(t.op) + 1), j)
  {
    var left, right := Print(style, t.l, LeftLevel(t.op)), Print(style, t.r, LevelOf(t.op) + 1);
    assert left + [style.op(t.op)] + right == left + ([style.op(t.op)] + right);
    k := i + |left|;
    StandsInParts(toks, i, left, k, [style.op(t.op)] + right, j);
    StandsHead(toks, k, style.op(t.op), right, j);
  }

  lemma ComparisonSpelled(w: Words, t: Token, op: BinOp)
    requires SpellsOnly(w, t, op) && LevelOf(op) == CMP_LEVEL
    ensures Comparison(t) == Some(op) && Ends(w, t, ADD_LEVEL)
  {
    OperatorsEnd(w, t, op);
    assert Comparison(t) == OpAt(w, t, CMP_LEVEL);
  }

  lemma ComparisonOf(w: Words, toks: seq<Token>, i: nat, l: Tree, k: nat, op: BinOp, r: Tree, j: nat)
    requires Lexed(toks) && i < k < |toks| - 1 && Parsed(w, toks, i, ADD_LEVEL) == Some((l, k))
    requires Comparison(toks[k]) == Some(op) && Parsed(w, toks, k + 1, ADD_LEVEL) == Some((r, j))
    ensures Parsed(w, toks, i, CMP_LEVEL) == Some((Bin(op, l, r), j))
  {
    assert Parsed(w, toks, i, CMP_LEVEL) == ParsedCmp(w, toks, i);
  }

  lemma {:induction false} ReadsOperands(w: Words, style: Style, toks: seq<Token>, i: nat, t: Tree, j: nat)
    returns (k: nat)
    requires Given(w, style, toks, t) && t.Bin? && LevelOf(t.op) == CMP_LEVEL
    requires Stands(toks, i, PrintBare(style, t), j) && Ends(w, toks[j], CMP_LEVEL)
    ensures i < k < |toks| - 1 && toks[k] == style.op(t.op)
    ensures Parsed(w, toks, i, ADD_LEVEL) == Some((t.l, k)) && Parsed(w, toks, k + 1, ADD_LEVEL) == Some((t.r, j))
    decreases t, 0
  {
    k := OperandsStand(style, toks, i, t, j);
    assert SpellsOnly(w, style.op(t.op), t.op);
    ComparisonSpelled(w, toks[k], t.op);
    ReadsBack(w, style, toks, i, t.l, ADD_LEVEL, k);
    ReadsBack(w, style, toks, k + 1, t.r, ADD_LEVEL, j);
  }

  lemma {:induction false} ReadsComparison(w: Words, style: Style, toks: seq<Token>, i: nat, t: Tree, j: nat)
    requires Given(w, style, toks, t) && t.Bin? && LevelOf(t.op) == CMP_LEVEL
    requires Stands(toks, i, PrintBare(style, t), j) && Ends(w, toks[j], CMP_LEVEL)
    ensures Parsed(w, toks, i, CMP_LEVEL) == Some((t, j))
    decreases t, 1
  {
    var k := ReadsOperands(w, style, toks, i, t, j);
    assert SpellsOnly(w, style.op(t.op), t.op);
    ComparisonSpelled(w, toks[k], t.op);
    ComparisonOf(w, toks, i, t.l, k, t.op, t.r, j);
  }

  /** After a left operand the parser is where it would be after the whole of it. */
  lemma {:induction false} ReadsLeft(w: Words, style: Style, toks: seq<Token>, i: nat, l: Tree, level: nat, j: nat)
    requires Given(w, style, toks, l) && IsChain(level)
    requires Stands(toks, i, Print(style, l, level), j) && Ends(w, toks[j], level + 1)
    ensures Parsed(w, toks, i, level) == ParsedRest(w, toks, l, j, level)
    decreases l, 60
  {
    if Level(l) == level {
      ReadsRest(w, style, toks, i, l, j);
    } else {
      ReadsBack(w, style, toks, i, l, level + 1, j);
    }
  }

  lemma {:induction false} ReadsRest(w: Words, style: Style, toks: seq<Token>, i: nat, t: Tree, j: nat)
    requires Given(w, style, toks, t) && t.Bin? && IsChain(LevelOf(t.op))
    requires Stands(toks, i, PrintBare(style, t), j) && Ends(w, toks[j], LevelOf(t.op) + 1)
    ensures Parsed(w, toks, i, LevelOf(t.op)) == ParsedRest(w, toks, t, j, LevelOf(t.op))
    decreases t, 0
  {
    var level := LevelOf(t.op);
    var k := OperandsStand(style, toks, i, t, j);
    assert SpellsOnly(w, style.op(t.op), t.op);
    OperatorsEnd(w, style.op(t.op), t.op);
    ReadsLeft(w, style, toks, i, t.l, level, k);
    ReadsBack(w, style, toks, k + 1, t.r, level + 1, j);
    RestStep(w, toks, t.l, t.op, t.r, k, j);
  }

  lemma {:induction false} ReadsPrimary(w: Words, style: Style, toks: seq<Token>, i: nat, t: Tree, j: nat)
    requires Given(w, style, toks, t) && Level(t) == PRIMARY_LEVEL
    requires Stands(toks, i, PrintBare(style, t), j) && Ends(w, toks[j], PRIMARY_LEVEL)
    ensures Parsed(w, toks, i, PRIMARY_LEVEL) == Some((t, j))
    decreases t, 5
  {
    var bare := PrintBare(style, t);
    assert bare[0] == toks[i..j][0] == toks[i];
    if t.Call? {
      ReadsCall(w, style, toks, i, t, j);
    } else if t.Member? {
      assert bare[1] == toks[i..j][1] == toks[i + 1] && bare[2] == toks[i..j][2] == toks[i + 2];
      NameStep(w, toks, i, t.name);
    } else if t.Ident? {
      NameStep(w, toks, i, t.name);
    } else {
      LiteralStep(w, style, toks, i, t);
    }
  }

  lemma AnswerStep(w: Words, style: Style, toks: seq<Token>, i: nat, b: bool)
    requires Lexed(toks) && Sound(w, style) && i + 1 < |toks|
    requires toks[i] == IdentTok(if b then style.yes else style.no)
    ensures ParsedName(w, toks, i) == Some((Bool(b), i + 1))
  {
    assert if b then IsTrue(w, toks[i]) else IsFalse(w, toks[i]) && !IsTrue(w, toks[i]);
  }

  lemma LiteralStep(w: Words, style: Style, toks: seq<Token>, i: nat, t: Tree)
    requires Given(w, style, toks, t) && (t.Num? || t.Str? || t.Bool?)
    requires i + 1 < |toks| && toks[i] == PrintBare(style, t)[0]
    ensures Parsed(w, toks, i, PRIMARY_LEVEL) == Some((t, i + 1))
  {
    assert Parsed(w, toks, i, PRIMARY_LEVEL) == ParsedPrimary(w, toks, i);
    match t
    case Num(x) => assert toks[i] == NumTok(style.number(x));
    case Str(s) => assert toks[i] == StrTok(s);
    case Bool(b) => AnswerStep(w, style, toks, i, b);
  }

  /** The parts of a call: its name, the parentheses and the arguments between them. */
  lemma CallStands(style: Style, toks: seq<Token>, i: nat, t: Tree, j: nat)
    requires t.Call? && Stands(toks, i, PrintBare(style, t), j)
    ensures i + 3 <= j && toks[i] == IdentTok(t.name) && toks[i + 1] == LParen && toks[j - 1] == RParen
    ensures Stands(toks, i + 2, PrintArgs(style, t.args), j - 1)
  {
    var args := PrintArgs(style, t.args);
    assert PrintBare(style, t) == [IdentTok(t.name)] + ([LParen] + (args + [RParen]));
    StandsHead(toks, i, IdentTok(t.name), [LParen] + (args + [RParen]), j);
    StandsHead(toks, i + 1, LParen, args + [RParen], j);
    StandsInParts(toks, i + 2, args, j - 1, [RParen], j);
  }

  lemma {:induction false} ReadsCall(w: Words, style: Style, toks: seq<Token>, i: nat, t: Tree, j: nat)
    requires Given(w, style, toks, t) && t.Call?
    requires Stands(toks, i, PrintBare(style, t), j)
    ensures Parsed(w, toks, i, PRIMARY_LEVEL) == Some((t, j))
    decreases t, 4
  {
    CallStands(style, toks, i, t, j);
    if t.args != [] {
      ArgsBeginWell(w, style, t.args);
      assert toks[i + 2] == toks[i + 2..j - 1][0];
      ReadsArgs(w, style, toks, i + 2, t.args, j - 1);
    }
    CallStep(w, toks, i, t.name, t.args, j - 1);
  }

  /** No printed argument begins with a closing parenthesis. */
  lemma {:induction false} BeginsWell(w: Words, style: Style, t: Tree, level: nat)
    requires Sound(w, style)
    ensures Print(style, t, level)[0] != RParen
    decreases t
  {
    if Level(t) >= level && t.Bin? {
      BeginsWell(w, style, t.l, LeftLevel(t.op));
    }
  }

  lemma ArgsBeginWell(w: Words, style: Style, args: seq<Tree>)
    requires Sound(w, style) && args != []
    ensures PrintArgs(style, args) != [] && PrintArgs(style, args)[0] != RParen
  {
    BeginsWell(w, style, args[0], OR_LEVEL);
  }

  lemma {:induction false} ReadsArgs(w: Words, style: Style, toks: seq<Token>, i: nat, args: seq<Tree>, j: nat)
    requires Lexed(toks) && Sound(w, style) && args != []
    requires forall k :: 0 <= k < |args| ==> Printable(w, style, args[k])
    requires Stands(toks, i, PrintArgs(style, args), j) && toks[j] == RParen
    ensures ParsedArgs(w, toks, i) == Some((args, j))
    decreases args, 40
  {
    if |args| == 1 {
      ClosersEnd(w, RParen, OR_LEVEL);
      ReadsBack(w, style, toks, i, args[0], OR_LEVEL, j);
      HeadTail(args);
      Nothing([args[0]]);
    } else {
      ReadsMoreArgs(w, style, toks, i, args, j);
    }
  }

  /** The first argument, the comma, and the other arguments. */
  lemma ArgsStand(style: Style, toks: seq<Token>, i: nat, args: seq<Tree>, j: nat) returns (k: nat)
    requires |args| > 1 && Stands(toks, i, PrintArgs(style, args), j)
    ensures Stands(toks, i, Print(style, args[0], OR_LEVEL), k) && toks[k] == Comma
    ensures Stands(toks, k + 1, PrintArgs(style, args[1..]), j)
  {
    var first, rest := Print(style, args[0], OR_LEVEL), PrintArgs(style, args[1..]);
    k := i + |first|;
    assert first + [Comma] + rest == first + ([Comma] + rest);
    StandsInParts(toks, i, first, k, [Comma] + rest, j);
    StandsHead(toks, k, Comma, rest, j);
  }

  lemma {:induction false} ReadsMoreArgs(w: Words, style: Style, toks: seq<Token>, i: nat, args: seq<Tree>, j: nat)
    requires Lexed(toks) && Sound(w, style) && |args| > 1
    requires forall k :: 0 <= k < |args| ==> Printable(w, style, args[k])
    requires Stands(toks, i, PrintArgs(style, args), j) && toks[j] == RParen
    ensures ParsedArgs(w, toks, i) == Some((args, j))
    decreases args, 39
  {
    var k := ArgsStand(style, toks, i, args, j);
    ClosersEnd(w, Comma, OR_LEVEL);
    ReadsBack(w, style, toks, i, args[0], OR_LEVEL, k);
    ReadsArgs(w, style, toks, k + 1, args[1..], j);
    ArgsStep(w, toks, i, args[0], k, args[1..], j);
    HeadTail(args);
  }

  /** No end mark is printed. */
  lemma {:induction false} PrintHasNoEof(w: Words, style: Style, t: Tree, level: nat)
    requires Sound(w, style)
    ensures Eof !in Print(style, t, level)
    decreases t
  {
    match t
    case Bin(op, l, r) =>
      PrintHasNoEof(w, style, l, LeftLevel(op));
      PrintHasNoEof(w, style, r, LevelOf(op) + 1);
      assert SpellsOnly(w, style.op(op), op);
      assert OpAt(w, Eof, LevelOf(op)) == None;
    case Not(x) => PrintHasNoEof(w, style, x, NOT_LEVEL);
    case Neg(x) => PrintHasNoEof(w, style, x, UNARY_LEVEL);
    case Call(_, args) => ArgsHaveNoEof(w, style, args);
    case _ =>
  }

  lemma {:induction false} ArgsHaveNoEof(w: Words, style: Style, args: seq<Tree>)
    requires Sound(w, style)
    ensures Eof !in PrintArgs(style, args)
    decreases args
  {
    if args != [] {
      PrintHasNoEof(w, style, args[0], OR_LEVEL);
      if |args| > 1 {
        ArgsHaveNoEof(w, style, args[1..]);
      }
    }
  }

  /** Parsing what was printed gives the same formula. */
  lemma ParseInvertsPrint(w: Words, style: Style, t: Tree)
    requires Sound(w, style) && Printable(w, style, t)
    ensures var toks := Print(style, t, OR_LEVEL) + [Eof];
            Lexed(toks) && ParsedFormula(w, toks) == Some(t)
  {
    var p := Print(style, t, OR_LEVEL);
    var toks := p + [Eof];
    PrintHasNoEof(w, style, t, OR_LEVEL);
    assert forall k :: 0 <= k < |p| ==> toks[k] == p[k] && p[k] in p;
    assert toks[0..|p|] == p;
    ClosersEnd(w, Eof, OR_LEVEL);
    ReadsBack(w, style, toks, 0, t, OR_LEVEL, |p|);
  }

  /** Hence two formulas that print alike are the same formula. */
  lemma PrintIsInjective(w: Words, style: Style, t: Tree, u: Tree)
    requires Sound(w, style) && Printable(w, style, t) && Printable(w, style, u)
    requires Print(style, t, OR_LEVEL) == Print(style, u, OR_LEVEL)
    ensures t == u
  {
    ParseInvertsPrint(w, style, t);
    ParseInvertsPrint(w, style, u);
  }

  function Symbol(op: BinOp): Token {
    match op
    case OrOp => OpTok("||")
    case AndOp => OpTok("&&")
    case Eq => OpTok("=")
    case Ne => OpTok("!=")
    case Lt => OpTok("<")
    case Le => OpTok("<=")
    case Gt => OpTok(">")
    case Ge => OpTok(">=")
    case Add => OpTok("+")
    case Sub => OpTok("-")
    case Mul => OpTok("*")
    case Div => OpTok("/")
  }

  lemma SymbolsSpell(w: Words, op: BinOp)
    ensures SpellsOnly(w, Symbol(op), op)
  {
  }

  /** Comparison without regard to case: a word is itself, and words that are written in
      capitals of the alphabet are told apart. */
  ghost predicate FoldsCase(w: Words) {
    && (forall a :: w.fold(a, a))
    && (forall a, b :: w.fold(a, b) ==>
          |a| == |b| && forall k :: 0 <= k < |a| && 'A' <= a[k] <= 'Z' && 'A' <= b[k] <= 'Z' ==> a[k] == b[k])
  }

  /** Operators as symbols, the negation as `!`, the answers as TRUE and FALSE. */
  function PlainStyle(number: real -> string): Style {
    Style(Symbol, OpTok("!"), "TRUE", "FALSE", number)
  }

  lemma OtherCapitals(w: Words, a: string, b: string, k: nat)
    requires FoldsCase(w) && k < |a| && k < |b| && 'A' <= a[k] <= 'Z' && 'A' <= b[k] <= 'Z' && a[k] != b[k]
    ensures !w.fold(a, b)
  {
  }

  lemma OtherLengths(w: Words, a: string, b: string)
    requires FoldsCase(w) && |a| != |b|
    ensures !w.fold(a, b)
  {
  }

  /** The symbols are a sound way to write formulas, whatever their numbers look like. */
  lemma PlainStyleIsSound(w: Words, number: real -> string)
    requires FoldsCase(w)
    ensures Sound(w, PlainStyle(number))
  {
    forall op ensures SpellsOnly(w, PlainStyle(number).op(op), op) {
      SymbolsSpell(w, op);
    }
    OtherLengths(w, "TRUE", "NOT");
    OtherLengths(w, "TRUE", "KH\U{00D4}NG");
    OtherLengths(w, "FALSE", "TRUE");
    OtherLengths(w, "FALSE", "\U{0110}\U{00DA}NG");
    OtherLengths(w, "FALSE", "NOT");
    OtherCapitals(w, "FALSE", "KH\U{00D4}NG", 0);
  }
}
