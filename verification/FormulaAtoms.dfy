/**
 The atoms of the check formulas as they are typed (lex, primary in
 internal/checkexpr/parse.go): numbers, texts in every kind of quotes, answers, names, fields
 and calls; and the texts that are no formula.
 */
module FormulaAtoms {
  import opened Util
  import opened FormulaSyntax
  import opened FormulaLexer
  import opened FormulaPieces
  import opened FormulaSource
  import opened Sequences
  import P = FormulaPrint

  lemma OneToken(ab: Alphabet, w: Words, s: string, t: Token)
    requires Sane(ab) && SameBlanks(ab) && Begins(ab, s) && Tokens(ab, s) == Some([t]) && t != Eof
    ensures ParsedSource(ab, w, s) == ParsedFormula(w, [t, Eof])
  {
    ReadAlone(ab, w, s);
    assert [t] + [Eof] == [t, Eof];
  }

  /** What the parser makes of a single token. */
  function Alone(w: Words, t: Token): Option<Tree> {
    match t
    case NumTok(text) => if w.number(text).None? then None else Some(Num(w.number(text).value))
    case StrTok(text) => Some(Str(text))
    case IdentTok(text) =>
      if IsNot(w, t) then None
      else if IsTrue(w, t) then Some(Bool(true))
      else if IsFalse(w, t) then Some(Bool(false))
      else Some(Ident(text))
    case _ => None
  }

  /** Nothing is read at the end mark. */
  lemma {:induction false} NothingAtTheEnd(w: Words, toks: seq<Token>, i: nat, level: nat)
    requires Lexed(toks) && i == |toks| - 1 && level <= PRIMARY_LEVEL
    ensures Parsed(w, toks, i, level) == None
    decreases PRIMARY_LEVEL - level
  {
    if level < PRIMARY_LEVEL {
      NothingAtTheEnd(w, toks, i, level + 1);
    }
  }

  lemma PrimaryAlone(w: Words, t: Token)
    requires t.NumTok? || t.StrTok? || t.IdentTok?
    ensures !IsNot(w, t) ==> Parsed(w, [t, Eof], 0, PRIMARY_LEVEL)
                             == if Alone(w, t).None? then None else Some((Alone(w, t).value, 1))
  {
    assert Parsed(w, [t, Eof], 0, PRIMARY_LEVEL) == ParsedPrimary(w, [t, Eof], 0);
    if t.IdentTok? {
      assert ParsedPrimary(w, [t, Eof], 0) == ParsedName(w, [t, Eof], 0);
    }
  }

  /** On every level a token alone is read as what it is. */
  lemma {:induction false} LevelsAlone(w: Words, t: Token, level: nat)
    requires (t.NumTok? || t.StrTok? || t.IdentTok?) && !IsNot(w, t) && level <= PRIMARY_LEVEL
    ensures Parsed(w, [t, Eof], 0, level) == if Alone(w, t).None? then None else Some((Alone(w, t).value, 1))
    decreases PRIMARY_LEVEL - level
  {
    if level == PRIMARY_LEVEL {
      PrimaryAlone(w, t);
    } else {
      LevelsAlone(w, t, level + 1);
      if Alone(w, t).Some? {
        P.ClosersEnd(w, Eof, OR_LEVEL);
        P.Descend(w, [t, Eof], 0, level, Alone(w, t).value, 1);
      }
    }
  }

  lemma NotAlone(w: Words, t: Token)
    requires t.IdentTok? && IsNot(w, t)
    ensures ParsedFormula(w, [t, Eof]) == None
  {
    NothingAtTheEnd(w, [t, Eof], 1, NOT_LEVEL);
    assert Parsed(w, [t, Eof], 0, NOT_LEVEL) == ParsedNot(w, [t, Eof], 0) == None;
    assert Parsed(w, [t, Eof], 0, AND_LEVEL) == None;
  }

  lemma ReadOfOne(ab: Alphabet, w: Words, s: string, t: Token)
    requires Sane(ab) && SameBlanks(ab) && Begins(ab, s) && Tokens(ab, s) == Some([t])
    requires t.NumTok? || t.StrTok? || t.IdentTok?
    ensures ParsedSource(ab, w, s) == Alone(w, t)
  {
    OneToken(ab, w, s, t);
    if IsNot(w, t) {
      NotAlone(w, t);
    } else {
      LevelsAlone(w, t, OR_LEVEL);
    }
  }

  /** Digits with points among or behind them. */
  predicate IsNumeral(ab: Alphabet, s: string) {
    s != "" && ab.digit(s[0]) && forall k :: 0 <= k < |s| ==> ab.digit(s[k]) || s[k] == '.'
  }

  /** A number is what the library reads from the whole of it. */
  lemma NumberIsRead(ab: Alphabet, w: Words, s: string)
    requires LeavesSigns(ab) && IsNumeral(ab, s)
    ensures ParsedSource(ab, w, s) == if w.number(s).None? then None else Some(Num(w.number(s).value))
  {
    ReadsWord(ab, NumTok(s), "");
    Nothing(s);
    TokensOfToken(ab, s, NumTok(s));
    SymbolCharacter(ab, '=');
    ReadOfOne(ab, w, s, NumTok(s));
  }

  /** The characters that end a text which `open` began. */
  predicate Ends(open: char, c: char) {
    match open
    case '"' => c == '"'
    case '\'' => c == '\''
    case _ => c == '\U{201D}' || c == '"'
  }

  predicate Opens(c: char) {
    c == '"' || c == '\'' || c == '\U{201C}' || c == '\U{201D}'
  }

  /** A text between quotes, also typographic ones, of which an English quote ends both. */
  lemma TextIsRead(ab: Alphabet, w: Words, open: char, text: string, close: char)
    requires LeavesSigns(ab) && Opens(open) && Ends(open, close) && forall k :: 0 <= k < |text| ==> !Ends(open, text[k])
    ensures ParsedSource(ab, w, [open] + (text + [close])) == Some(Str(text))
  {
    var s := [open] + (text + [close]);
    assert s[0] == open && s[1..] == text + [close];
    RunIs(x => !EndsText(open, x), text, [close]);
    assert s[1..|text| + 1] == text;
    assert Next(ab, s) == Take(StrTok(text), |s|);
    TokensOfToken(ab, s, StrTok(text));
    ReadOfOne(ab, w, s, StrTok(text));
  }

  lemma OpenTextIsBad(ab: Alphabet, open: char, text: string)
    requires Sane(ab) && Opens(open) && forall k :: 0 <= k < |text| ==> !Ends(open, text[k])
    ensures Tokens(ab, [open] + text) == None
  {
    var s := [open] + text;
    assert s[0] == open && s[1..] == text;
    RunIs(x => !EndsText(open, x), text, "");
    Nothing(text);
    assert Next(ab, s) == Bad;
  }

  /** A text that is not closed makes no formula. */
  lemma OpenTextIsRefused(ab: Alphabet, w: Words, pre: string, open: char, text: string)
    requires LeavesSigns(ab) && Opens(open) && forall k :: 0 <= k < |text| ==> !Ends(open, text[k])
    requires Tokens(ab, pre).Some? && Begins(ab, pre + ([open] + text))
    ensures ParsedSource(ab, w, pre + ([open] + text)) == None
  {
    OpenTextIsBad(ab, open, text);
    assert !InWord(ab, open) && !InNumber(ab, open);
    assert pre != "" ==> !IsPair([pre[|pre| - 1], open]);
    TokensInTwo(ab, pre, [open] + text);
    ReadAlone(ab, w, pre + ([open] + text));
  }

  /** A word alone: an answer in one of the two languages, or a name, but no NOT. */
  lemma WordIsRead(ab: Alphabet, w: Words, s: string)
    requires LeavesSigns(ab) && TellsApart(w) && IsName(ab, s)
    ensures ParsedSource(ab, w, s) ==
            if w.fold(s, "NOT") || w.fold(s, "KH\U{00D4}NG") then None
            else if w.fold(s, "TRUE") || w.fold(s, "\U{0110}\U{00DA}NG") then Some(Bool(true))
            else if w.fold(s, "FALSE") || w.fold(s, "SAI") then Some(Bool(false))
            else Some(Ident(s))
  {
    TokensOfName(ab, s);
    SymbolCharacter(ab, '=');
    ReadOfOne(ab, w, s, IdentTok(s));
  }

  /** A name that is none of the words an expression can begin with. */
  predicate PlainName(ab: Alphabet, w: Words, s: string) {
    && IsName(ab, s) && !w.fold(s, "NOT") && !w.fold(s, "KH\U{00D4}NG") && !w.fold(s, "TRUE")
    && !w.fold(s, "\U{0110}\U{00DA}NG") && !w.fold(s, "FALSE") && !w.fold(s, "SAI")
  }

  lemma TokensBehind(ab: Alphabet, t: Token, rest: string)
    requires Sane(ab) && Spellable(ab, t) && (rest == "" || !RunsOn(ab, t, rest[0]))
    ensures Tokens(ab, Spelled(t) + rest) == Prefixed([t], Tokens(ab, rest))
  {
    Nothing(rest);
    TokensOfOne(ab, t, "", rest);
  }

  lemma TokensOfDot(ab: Alphabet, field: string, f: Token)
    requires Sane(ab) && Spellable(ab, f) && (f == IdentTok(field) || f == NumTok(field))
    ensures Tokens(ab, "." + field) == Prefixed([Dot], Some([f]))
  {
    Nothing(field);
    ReadsToken(ab, f, "");
    TokensOfToken(ab, field, f);
    TokensBehind(ab, Dot, field);
  }

  lemma TokensOfField(ab: Alphabet, s: string, field: string, f: Token)
    requires Sane(ab) && IsName(ab, s) && Spellable(ab, f) && (f == IdentTok(field) || f == NumTok(field))
    ensures Tokens(ab, s + ("." + field)) == Some([IdentTok(s), Dot, f])
  {
    TokensOfDot(ab, field, f);
    SymbolCharacter(ab, '.');
    TokensBehind(ab, IdentTok(s), "." + field);
    assert [IdentTok(s)] + ([Dot] + [f]) == [IdentTok(s), Dot, f];
  }

  lemma FieldIsPart(w: Words, s: string, field: string, f: Token)
    requires !P.Reserved(w, s) && (f == IdentTok(field) || f == NumTok(field))
    ensures ParsedFormula(w, [IdentTok(s), Dot, f, Eof]) == Some(Member(s, field))
  {
    var toks := [IdentTok(s), Dot, f, Eof];
    assert Parsed(w, toks, 0, PRIMARY_LEVEL) == ParsedPrimary(w, toks, 0) == ParsedName(w, toks, 0);
    assert Operand(w, toks[..3], PRIMARY_LEVEL, Member(s, field)) by {
      assert toks[..3] + [Eof] == toks;
    }
    OperandIsLooser(w, toks[..3], PRIMARY_LEVEL, OR_LEVEL, Member(s, field));
    assert toks[..3] + [Eof] == toks;
  }

  lemma ReadOfField(ab: Alphabet, w: Words, s: string, field: string, f: Token)
    requires LeavesSigns(ab) && PlainName(ab, w, s) && Spellable(ab, f)
    requires f == IdentTok(field) || f == NumTok(field)
    ensures Read(ab, w, s + ("." + field)) == Some(Member(s, field))
  {
    TokensOfField(ab, s, field, f);
    FieldIsPart(w, s, field, f);
    LexedIsLexed(ab, s + ("." + field));
    assert [IdentTok(s), Dot, f] + [Eof] == [IdentTok(s), Dot, f, Eof];
  }

  /** A field of a document type; its key may be a name or a number. */
  lemma FieldIsRead(ab: Alphabet, w: Words, s: string, field: string)
    requires LeavesSigns(ab) && PlainName(ab, w, s) && (IsName(ab, field) || IsNumeral(ab, field))
    ensures ParsedSource(ab, w, s + ("." + field)) == Some(Member(s, field))
  {
    ReadOfField(ab, w, s, field, if IsName(ab, field) then IdentTok(field) else NumTok(field));
    SymbolCharacter(ab, '=');
    ReadAlone(ab, w, s + ("." + field));
  }

  /** A character that is in no class and begins no sign makes no formula. */
  lemma StrayCharacterIsRefused(ab: Alphabet, w: Words, pre: string, c: char, post: string)
    requires LeavesSigns(ab) && Tokens(ab, pre).Some? && Begins(ab, pre + ([c] + post)) && Parted(ab, pre, [c])
    requires !ab.space(c) && !ab.digit(c) && !ab.letter(c) && c !in "+-*/=<>!(),._\"'"
    requires c !in "\U{2264}\U{2265}\U{2260}\U{201C}\U{201D}"
    requires c == '&' || c == '|' ==> post == "" || post[0] != c
    ensures ParsedSource(ab, w, pre + ([c] + post)) == None
  {
    var s := [c] + post;
    assert s[0] == c;
    assert |s| > 1 ==> s[..2] == [c, post[0]];
    assert Next(ab, s) == Bad;
    TokensInTwo(ab, pre, s);
    ReadAlone(ab, w, pre + s);
  }

  // --------------------------------------------------------------------------------- calls

  /** The arguments of a call, with commas between them. */
  function Joined(parts: seq<string>): string {
    if parts == [] then "" else if |parts| == 1 then parts[0] else parts[0] + ("," + Joined(parts[1..]))
  }

  ghost predicate Formulas(ab: Alphabet, w: Words, parts: seq<string>, trees: seq<Tree>) {
    |parts| == |trees| && forall k :: 0 <= k < |parts| ==> Formula(ab, w, parts[k], trees[k])
  }

  function JoinedTokens(args: seq<seq<Token>>): seq<Token> {
    if args == [] then [] else if |args| == 1 then args[0] else args[0] + ([Comma] + JoinedTokens(args[1..]))
  }

  /** Every argument can stand alone. */
  ghost predicate Arguments(w: Words, args: seq<seq<Token>>, trees: seq<Tree>) {
    |args| == |trees| && forall k :: 0 <= k < |args| ==> Operand(w, args[k], OR_LEVEL, trees[k])
  }

  lemma TokensOfTwo(ab: Alphabet, s: string, rest: string, a: seq<Token>, b: seq<Token>)
    requires Sane(ab) && Tokens(ab, s) == Some(a) && Tokens(ab, rest) == Some(b)
    ensures Tokens(ab, s + ("," + rest)) == Some(a + ([Comma] + b))
  {
    TokensBeforeBracket(ab, s, ',', Comma, rest);
  }

  /** The tokens of the arguments. */
  lemma {:induction false} TokensOfJoined(ab: Alphabet, w: Words, parts: seq<string>, trees: seq<Tree>)
    returns (args: seq<seq<Token>>)
    requires Sane(ab) && SameBlanks(ab) && Formulas(ab, w, parts, trees)
    ensures Arguments(w, args, trees) && Tokens(ab, Joined(parts)) == Some(JoinedTokens(args))
  {
    if parts == [] {
      args := [];
    } else {
      OperandIsFormula(ab, w, parts[0], trees[0]);
      var first := Tokens(ab, parts[0]).value;
      var rest := TokensOfJoined(ab, w, parts[1..], trees[1..]);
      args := [first] + rest;
      assert args[1..] == rest;
      if |parts| > 1 {
        TokensOfTwo(ab, parts[0], Joined(parts[1..]), first, JoinedTokens(rest));
      }
    }
  }

  /** One argument, and what is behind it. */
  lemma ArgumentIsRead(w: Words, arg: seq<Token>, t: Tree, front: seq<Token>, x: Token, back: seq<Token>,
                       all: seq<Token>)
    requires Operand(w, arg, OR_LEVEL, t) && Lexed(all) && all == front + (arg + ([x] + back))
    requires x == Comma || x == RParen
    ensures Gives(w, all, |front|, OR_LEVEL, t, |front| + |arg|) && all[|front| + |arg|] == x
  {
    StandsInParts(w, front, arg, [x] + back, all);
    P.ClosersEnd(w, x, OR_LEVEL);
    OperandIsRead(w, arg, all, |front|, OR_LEVEL, t);
  }

  lemma CommaBetween(front: seq<Token>, arg: seq<Token>, rest: seq<Token>, back: seq<Token>)
    ensures front + (arg + ([Comma] + rest) + back) == front + (arg + ([Comma] + (rest + back)))
    ensures front + (arg + ([Comma] + rest) + back) == (front + (arg + [Comma])) + (rest + back)
  {
  }

  predicate GivesArgs(w: Words, toks: seq<Token>, i: nat, trees: seq<Tree>, k: nat) {
    Lexed(toks) && i < k < |toks| && ParsedArgs(w, toks, i) == Some((trees, k))
  }

  lemma ArgumentsBegin(w: Words, toks: seq<Token>, i: nat, trees: seq<Tree>, k: nat)
    requires GivesArgs(w, toks, i, trees, k)
    ensures toks[i] != RParen
  {
    if toks[i] == RParen {
      NothingBegins(w, toks, i, OR_LEVEL);
    }
  }

  lemma OneArgument(w: Words, toks: seq<Token>, i: nat, t: Tree, j: nat)
    requires Gives(w, toks, i, OR_LEVEL, t, j) && toks[j] == RParen
    ensures GivesArgs(w, toks, i, [t], j)
  {
  }

  lemma FirstOfArguments(w: Words, toks: seq<Token>, i: nat, trees: seq<Tree>, j: nat, k: nat)
    requires trees != [] && Gives(w, toks, i, OR_LEVEL, trees[0], j) && toks[j] == Comma
    requires GivesArgs(w, toks, j + 1, trees[1..], k)
    ensures GivesArgs(w, toks, i, trees, k)
  {
    P.ArgsStep(w, toks, i, trees[0], j, trees[1..], k);
    HeadTail(trees);
  }

  lemma LastArgument(w: Words, arg: seq<Token>, t: Tree, front: seq<Token>, all: seq<Token>)
    requires Operand(w, arg, OR_LEVEL, t) && Lexed(all) && all == front + (arg + [RParen, Eof])
    ensures GivesArgs(w, all, |front|, [t], |all| - 2)
  {
    assert [RParen, Eof] == [RParen] + [Eof];
    ArgumentIsRead(w, arg, t, front, RParen, [Eof], all);
    OneArgument(w, all, |front|, t, |front| + |arg|);
  }

  lemma EarlierArgument(w: Words, arg: seq<Token>, trees: seq<Tree>, front: seq<Token>, back: seq<Token>,
                        all: seq<Token>, k: nat)
    requires trees != [] && Operand(w, arg, OR_LEVEL, trees[0]) && Lexed(all)
    requires all == front + (arg + ([Comma] + back)) && GivesArgs(w, all, |front| + |arg| + 1, trees[1..], k)
    ensures GivesArgs(w, all, |front|, trees, k)
  {
    ArgumentIsRead(w, arg, trees[0], front, Comma, back, all);
    FirstOfArguments(w, all, |front|, trees, |front| + |arg|, k);
  }

  lemma {:induction false} ArgumentsAreRead(w: Words, args: seq<seq<Token>>, trees: seq<Tree>,
                                            front: seq<Token>, all: seq<Token>)
    requires Arguments(w, args, trees) && args != [] && Lexed(all)
    requires all == front + (JoinedTokens(args) + [RParen, Eof])
    ensures GivesArgs(w, all, |front|, trees, |all| - 2)
    decreases |args|
  {
    if |args| == 1 {
      LastArgument(w, args[0], trees[0], front, all);
      assert trees == [trees[0]];
    } else {
      var rest, further := JoinedTokens(args[1..]), front + (args[0] + [Comma]);
      CommaBetween(front, args[0], rest, [RParen, Eof]);
      ArgumentsAreRead(w, args[1..], trees[1..], further, all);
      EarlierArgument(w, args[0], trees, front, rest + [RParen, Eof], all, |all| - 2);
    }
  }

  /** A name and what stands between parentheses behind it. */
  function Called(s: string, inside: string): string {
    s + Parens(inside)
  }

  lemma TokensOfCall(ab: Alphabet, s: string, inside: string)
    requires Sane(ab) && IsName(ab, s) && Tokens(ab, inside).Some?
    ensures Tokens(ab, Called(s, inside)) == Some([IdentTok(s), LParen] + (Tokens(ab, inside).value + [RParen]))
  {
    TokensOfParens(ab, inside);
    SymbolCharacter(ab, '(');
    TokensBehind(ab, IdentTok(s), Parens(inside));
    assert [IdentTok(s)] + ([LParen] + (Tokens(ab, inside).value + [RParen]))
        == [IdentTok(s), LParen] + (Tokens(ab, inside).value + [RParen]);
  }

  lemma CallOperand(w: Words, s: string, inside: seq<Token>, args: seq<Tree>)
    requires !P.Reserved(w, s)
    requires var all := [IdentTok(s), LParen] + (inside + [RParen, Eof]);
             && Lexed(all)
             && if inside == [] then args == []
                else all[2] != RParen && ParsedArgs(w, all, 2) == Some((args, |all| - 2))
    ensures Operand(w, [IdentTok(s), LParen] + (inside + [RParen]), OR_LEVEL, Call(w.upper(s), args))
  {
    var toks := [IdentTok(s), LParen] + (inside + [RParen]);
    var all := [IdentTok(s), LParen] + (inside + [RParen, Eof]);
    assert toks + [Eof] == all;
    P.CallStep(w, all, 0, s, args, |all| - 2);
    OperandIsLooser(w, toks, PRIMARY_LEVEL, OR_LEVEL, Call(w.upper(s), args));
  }

  lemma CallOfArguments(w: Words, s: string, args: seq<seq<Token>>, trees: seq<Tree>)
    requires !P.Reserved(w, s) && Arguments(w, args, trees)
    requires Lexed([IdentTok(s), LParen] + (JoinedTokens(args) + [RParen, Eof]))
    ensures Operand(w, [IdentTok(s), LParen] + (JoinedTokens(args) + [RParen]), OR_LEVEL, Call(w.upper(s), trees))
  {
    var inside := JoinedTokens(args);
    var all := [IdentTok(s), LParen] + (inside + [RParen, Eof]);
    if args != [] {
      ArgumentsAreRead(w, args, trees, [IdentTok(s), LParen], all);
      ArgumentsBegin(w, all, 2, trees, |all| - 2);
    }
    CallOperand(w, s, inside, trees);
  }

  /** A call of any function with any formulas as arguments, or none. */
  lemma CallIsRead(ab: Alphabet, w: Words, s: string, parts: seq<string>, trees: seq<Tree>)
    requires LeavesSigns(ab) && PlainName(ab, w, s) && Formulas(ab, w, parts, trees)
    ensures Formula(ab, w, Called(s, Joined(parts)), Call(w.upper(s), trees))
  {
    var args := TokensOfJoined(ab, w, parts, trees);
    var text, toks := Called(s, Joined(parts)), JoinedTokens(args);
    TokensOfCall(ab, s, Joined(parts));
    LexedIsLexed(ab, text);
    assert [IdentTok(s), LParen] + (toks + [RParen]) + [Eof] == [IdentTok(s), LParen] + (toks + [RParen, Eof]);
    CallOfArguments(w, s, args, trees);
    SymbolCharacter(ab, '=');
    OperandIsFormula(ab, w, text, Call(w.upper(s), trees));
  }
}
