/**
 The lexer and the parser of the check formulas, piece by piece (internal/checkexpr/parse.go):
 the tokens of a text are those of its front and of the rest, and what is read from tokens
 alone is read in the same way where they stand in a longer formula.
 */
module FormulaPieces {
  import opened Util
  import opened FormulaSyntax
  import opened FormulaLexer
  import opened Sequences
  import P = FormulaPrint

  // -------------------------------------------------------------- the lexer, piece by piece

  /** The signs outside ASCII are no letters, digits or blanks either. */
  ghost predicate LeavesSigns(ab: Alphabet) {
    && Sane(ab) && SameBlanks(ab)
    && forall c :: c == '\U{2264}' || c == '\U{2265}' || c == '\U{2260}' ==>
         !ab.space(c) && !ab.digit(c) && !ab.letter(c)
  }

  /** No token that ends with `p` takes `c` in. */
  predicate Breaks(ab: Alphabet, p: char, c: char) {
    || ab.space(p) || p in "()," || IsQuote(p)
    || (!InWord(ab, c) && !InNumber(ab, c) && !IsPair([p, c]))
  }

  /** The tokens of the two texts stay apart when one is put behind the other. */
  predicate Parted(ab: Alphabet, a: string, b: string) {
    a == "" || b == "" || Breaks(ab, a[|a| - 1], b[0])
  }

  /** A run that stops inside, or before what follows, stays the same. */
  lemma {:induction false} RunInFront(p: char -> bool, s: string, rest: string)
    requires Run(p, s) < |s| || rest == "" || !p(rest[0])
    ensures Run(p, s + rest) == Run(p, s)
  {
    if s == "" {
      Nothing(rest);
    } else if p(s[0]) {
      assert (s + rest)[1..] == s[1..] + rest;
      RunInFront(p, s[1..], rest);
    }
  }

  /** A run that reaches the end holds the last character. */
  lemma RunToEnd(p: char -> bool, s: string)
    requires s != "" && p(s[0]) && Run(p, s[1..]) == |s| - 1
    ensures p(s[|s| - 1])
  {
    RunHolds(p, s[1..]);
    if |s| > 1 {
      assert s[|s| - 1] == s[1..][|s| - 2];
    }
  }

  lemma RunInFrontOf(p: char -> bool, s: string, rest: string)
    requires s != "" && p(s[0]) && (rest != "" && p(s[|s| - 1]) ==> !p(rest[0]))
    ensures (s + rest)[1..] == s[1..] + rest && Run(p, s[1..] + rest) == Run(p, s[1..])
  {
    if Run(p, s[1..]) == |s| - 1 {
      RunToEnd(p, s);
    }
    RunInFront(p, s[1..], rest);
  }

  lemma FrontOf(a: string, b: string, n: nat)
    requires n <= |a|
    ensures (a + b)[..n] == a[..n] && (a + b)[n..] == a[n..] + b
    ensures n > 0 ==> (a + b)[1..n] == a[1..n] && (a + b)[0] == a[0]
  {
  }

  /** What follows the first token of a text does not change it. */
  lemma NumberStays(ab: Alphabet, a: string, b: string)
    requires Sane(ab) && a != "" && Parted(ab, a, b) && ab.digit(a[0])
    ensures Next(ab, a + b) == Next(ab, a)
  {
    RunInFrontOf(x => InNumber(ab, x), a, b);
    FrontOf(a, b, Run(x => InNumber(ab, x), a[1..]) + 1);
  }

  lemma WordStays(ab: Alphabet, a: string, b: string)
    requires Sane(ab) && a != "" && Parted(ab, a, b) && (ab.letter(a[0]) || a[0] == '_')
    ensures Next(ab, a + b) == Next(ab, a)
  {
    RunInFrontOf(x => InWord(ab, x), a, b);
    FrontOf(a, b, Run(x => InWord(ab, x), a[1..]) + 1);
  }

  lemma QuoteStays(ab: Alphabet, a: string, b: string)
    requires Sane(ab) && a != "" && !Next(ab, a).Bad? && IsQuote(a[0])
    ensures Next(ab, a + b) == Next(ab, a)
  {
    RunInFront(x => !EndsText(a[0], x), a[1..], b);
    FrontOf(a, b, 1);
    FrontOf(a, b, Run(x => !EndsText(a[0], x), a[1..]) + 1);
  }

  /** What is read where the text begins with a sign. */
  function SignOf(s: string): Lexeme
    requires s != ""
  {
    if |s| > 1 && IsPair(s[..2]) then Take(OpTok(s[..2]), 2)
    else if Single(s[0]).Some? then Take(Single(s[0]).value, 1)
    else Bad
  }

  predicate BeginsWithSign(ab: Alphabet, s: string) {
    s != "" && !ab.space(s[0]) && !ab.digit(s[0]) && !IsQuote(s[0]) && !ab.letter(s[0]) && s[0] != '_'
  }

  lemma NextIsSign(ab: Alphabet, s: string)
    requires BeginsWithSign(ab, s)
    ensures Next(ab, s) == SignOf(s)
  {
  }

  lemma SignStays(ab: Alphabet, a: string, b: string)
    requires Sane(ab) && Parted(ab, a, b) && BeginsWithSign(ab, a)
    ensures Next(ab, a + b) == Next(ab, a)
  {
    FrontOf(a, b, 1);
    NextIsSign(ab, a);
    NextIsSign(ab, a + b);
    if |a| > 1 {
      FrontOf(a, b, 2);
    } else if b != "" {
      assert (a + b)[..2] == [a[0], b[0]];
    } else {
      Nothing(a);
    }
  }

  lemma NextStays(ab: Alphabet, a: string, b: string)
    requires Sane(ab) && a != "" && Parted(ab, a, b) && !Next(ab, a).Bad?
    ensures Next(ab, a + b) == Next(ab, a)
  {
    if ab.space(a[0]) {
      assert (a + b)[0] == a[0];
    } else if ab.digit(a[0]) {
      NumberStays(ab, a, b);
    } else if IsQuote(a[0]) {
      QuoteStays(ab, a, b);
    } else if ab.letter(a[0]) || a[0] == '_' {
      WordStays(ab, a, b);
    } else {
      SignStays(ab, a, b);
    }
  }

  /** The tokens of a text are those of its front and those of the rest. */
  lemma {:induction false} TokensInTwo(ab: Alphabet, a: string, b: string)
    requires Sane(ab) && Tokens(ab, a).Some? && Parted(ab, a, b)
    ensures Tokens(ab, a + b) == Prefixed(Tokens(ab, a).value, Tokens(ab, b))
    decreases |a|
  {
    if a == "" {
      Nothing(b);
      PrefixedNone(Tokens(ab, b));
    } else {
      NextStays(ab, a, b);
      var n := if Next(ab, a).Skip? then 1 else Next(ab, a).size;
      FrontOf(a, b, n);
      assert a[n..] != "" ==> a[n..][|a[n..]| - 1] == a[|a| - 1];
      TokensInTwo(ab, a[n..], b);
      if Next(ab, a).Take? {
        PrefixedBy(Next(ab, a).tok, Tokens(ab, a[n..]).value, Tokens(ab, b));
      }
    }
  }

  lemma PrefixedBy(t: Token, toks: seq<Token>, rest: Option<seq<Token>>)
    ensures Prefixed([t], Prefixed(toks, rest)) == Prefixed([t] + toks, rest)
  {
    if rest.Some? {
      assert [t] + (toks + rest.value) == ([t] + toks) + rest.value;
    }
  }

  /** Texts with blanks between them. */
  lemma TokensWithGap(ab: Alphabet, a: string, gap: string, b: string)
    requires Sane(ab) && Tokens(ab, a).Some? && AllBlank(ab, gap)
    requires gap == "" ==> Parted(ab, a, b)
    ensures Tokens(ab, a + (gap + b)) == Prefixed(Tokens(ab, a).value, Tokens(ab, b))
  {
    BlanksInFront(ab, gap, b);
    if gap == "" {
      Nothing(b);
    } else {
      assert (gap + b)[0] == gap[0] && !IsPair([if a == "" then ' ' else a[|a| - 1], gap[0]]);
    }
    TokensInTwo(ab, a, gap + b);
  }

  // ------------------------------------------------------------- the parser, piece by piece

  /** Tokens the parser does not tell apart where the first is read: the same, or spellings
      of one operator. */
  predicate Like(w: Words, x: Token, y: Token) {
    x == y || (&& x.OpTok? && (y.OpTok? || y.IdentTok?) && x != OpTok("-") && y != OpTok("-")
               && IsNot(w, x) == IsNot(w, y)
               && forall level: nat :: level <= PRIMARY_LEVEL ==> OpAt(w, x, level) == OpAt(w, y, level))
  }

  /** The tokens of `a`, up to its end mark, are found in `b` from `d` on. */
  ghost predicate Within(w: Words, a: seq<Token>, b: seq<Token>, d: nat) {
    && Lexed(a) && Lexed(b) && d + |a| <= |b|
    && forall k :: 0 <= k < |a| - 1 ==> Like(w, a[k], b[k + d])
  }

  /** What follows in `b` does not carry the expression on. */
  predicate Closed(w: Words, a: seq<Token>, b: seq<Token>, d: nat, j: nat, level: nat) {
    && d + |a| <= |b| && j < |a|
    && (j < |a| - 1 || P.Ends(w, b[j + d], level))
  }

  lemma LikeAt(w: Words, a: seq<Token>, b: seq<Token>, d: nat, j: nat, level: nat)
    requires Within(w, a, b, d) && Closed(w, a, b, d, j, level) && level <= PRIMARY_LEVEL
    ensures OpAt(w, a[j], level) == OpAt(w, b[j + d], level)
    ensures a[j] != Eof ==> Like(w, a[j], b[j + d])
  {
  }

  /** The parser's function of this level reads `t` from `i` to `j`. */
  predicate Gives(w: Words, toks: seq<Token>, i: nat, level: nat, t: Tree, j: nat) {
    Lexed(toks) && i < j < |toks| && level <= PRIMARY_LEVEL && Parsed(w, toks, i, level) == Some((t, j))
  }

  predicate GivesRest(w: Words, toks: seq<Token>, l: Tree, i: nat, level: nat, t: Tree, j: nat) {
    Lexed(toks) && i <= j < |toks| && IsChain(level) && ParsedRest(w, toks, l, i, level) == Some((t, j))
  }

  /** A chain is its first operand and the rest of it. */
  lemma ChainFront(w: Words, toks: seq<Token>, i: nat, level: nat, t: Tree, j: nat) returns (l: Tree, k: nat)
    requires Gives(w, toks, i, level, t, j) && IsChain(level)
    ensures Gives(w, toks, i, level + 1, l, k) && GivesRest(w, toks, l, k, level, t, j)
  {
    l, k := Parsed(w, toks, i, level + 1).value.0, Parsed(w, toks, i, level + 1).value.1;
  }

  lemma ChainBack(w: Words, toks: seq<Token>, i: nat, level: nat, l: Tree, k: nat, t: Tree, j: nat)
    requires IsChain(level) && Gives(w, toks, i, level + 1, l, k) && GivesRest(w, toks, l, k, level, t, j)
    ensures Gives(w, toks, i, level, t, j)
  {
  }

  /** The rest of a chain is empty, or an operator, an operand, and again a rest. */
  lemma RestFront(w: Words, toks: seq<Token>, l: Tree, i: nat, level: nat, t: Tree, j: nat, op: BinOp)
    returns (r: Tree, k: nat)
    requires GivesRest(w, toks, l, i, level, t, j) && OpAt(w, toks[i], level) == Some(op)
    ensures Gives(w, toks, i + 1, level + 1, r, k) && GivesRest(w, toks, Bin(op, l, r), k, level, t, j)
  {
    r, k := Parsed(w, toks, i + 1, level + 1).value.0, Parsed(w, toks, i + 1, level + 1).value.1;
  }

  lemma RestBack(w: Words, toks: seq<Token>, l: Tree, i: nat, level: nat, op: BinOp, r: Tree, k: nat, t: Tree, j: nat)
    requires IsChain(level) && Gives(w, toks, i + 1, level + 1, r, k) && OpAt(w, toks[i], level) == Some(op)
    requires GivesRest(w, toks, Bin(op, l, r), k, level, t, j)
    ensures GivesRest(w, toks, l, i, level, t, j)
  {
  }

  lemma RestEnds(w: Words, toks: seq<Token>, l: Tree, i: nat, level: nat)
    requires Lexed(toks) && i < |toks| && IsChain(level) && OpAt(w, toks[i], level) == None
    ensures ParsedRest(w, toks, l, i, level) == Some((l, i))
  {
  }

  /** Whatever is read from `a` is read in the same way where its tokens stand in `b`. */
  lemma {:induction false} ReadWithin(w: Words, a: seq<Token>, b: seq<Token>, d: nat, i: nat, level: nat,
                                      t: Tree, j: nat)
    requires Within(w, a, b, d) && Gives(w, a, i, level, t, j) && Closed(w, a, b, d, j, level)
    ensures Gives(w, b, i + d, level, t, j + d)
    decreases |a| - i, 30 - 3 * level
  {
    if IsChain(level) {
      ChainWithin(w, a, b, d, i, level, t, j);
    } else if level == NOT_LEVEL {
      NotWithin(w, a, b, d, i, t, j);
    } else if level == CMP_LEVEL {
      CmpWithin(w, a, b, d, i, t, j);
    } else if level == UNARY_LEVEL {
      UnaryWithin(w, a, b, d, i, t, j);
    } else {
      PrimaryWithin(w, a, b, d, i, t, j);
    }
  }

  lemma {:induction false} ChainWithin(w: Words, a: seq<Token>, b: seq<Token>, d: nat, i: nat, level: nat,
                                       t: Tree, j: nat)
    requires Within(w, a, b, d) && Gives(w, a, i, level, t, j) && Closed(w, a, b, d, j, level) && IsChain(level)
    ensures Gives(w, b, i + d, level, t, j + d)
    decreases |a| - i, 29 - 3 * level
  {
    var l, k := ChainFront(w, a, i, level, t, j);
    ReadWithin(w, a, b, d, i, level + 1, l, k);
    RestWithin(w, a, b, d, l, k, level, t, j);
    ChainBack(w, b, i + d, level, l, k + d, t, j + d);
  }

  lemma {:induction false} RestWithin(w: Words, a: seq<Token>, b: seq<Token>, d: nat, l: Tree, i: nat, level: nat,
                                      t: Tree, j: nat)
    requires Within(w, a, b, d) && GivesRest(w, a, l, i, level, t, j) && Closed(w, a, b, d, j, level)
    ensures GivesRest(w, b, l, i + d, level, t, j + d)
    decreases |a| - i, 0
  {
    var op := OpAt(w, a[i], level);
    LikeAt(w, a, b, d, i, level);
    if op.None? {
      RestEnds(w, a, l, i, level);
      RestEnds(w, b, l, i + d, level);
    } else {
      var r, k := RestFront(w, a, l, i, level, t, j, op.value);
      ReadWithin(w, a, b, d, i + 1, level + 1, r, k);
      RestWithin(w, a, b, d, Bin(op.value, l, r), k, level, t, j);
      RestBack(w, b, l, i + d, level, op.value, r, k + d, t, j + d);
    }
  }

  lemma {:induction false} NotWithin(w: Words, a: seq<Token>, b: seq<Token>, d: nat, i: nat, t: Tree, j: nat)
    requires Within(w, a, b, d) && Gives(w, a, i, NOT_LEVEL, t, j) && Closed(w, a, b, d, j, NOT_LEVEL)
    ensures Gives(w, b, i + d, NOT_LEVEL, t, j + d)
    decreases |a| - i, 23
  {
    assert Like(w, a[i], b[i + d]) && ParsedNot(w, a, i) == Some((t, j));
    if IsNot(w, a[i]) {
      ReadWithin(w, a, b, d, i + 1, NOT_LEVEL, t.arg, j);
    } else {
      ReadWithin(w, a, b, d, i, CMP_LEVEL, t, j);
    }
    assert ParsedNot(w, b, i + d) == Some((t, j + d));
  }

  lemma {:induction false} CmpWithin(w: Words, a: seq<Token>, b: seq<Token>, d: nat, i: nat, t: Tree, j: nat)
    requires Within(w, a, b, d) && Gives(w, a, i, CMP_LEVEL, t, j) && Closed(w, a, b, d, j, CMP_LEVEL)
    ensures Gives(w, b, i + d, CMP_LEVEL, t, j + d)
    decreases |a| - i, 20
  {
    assert ParsedCmp(w, a, i) == Some((t, j));
    var l, k := Parsed(w, a, i, ADD_LEVEL).value.0, Parsed(w, a, i, ADD_LEVEL).value.1;
    ReadWithin(w, a, b, d, i, ADD_LEVEL, l, k);
    LikeAt(w, a, b, d, k, CMP_LEVEL);
    assert OpAt(w, a[k], CMP_LEVEL) == Comparison(a[k]) && OpAt(w, b[k + d], CMP_LEVEL) == Comparison(b[k + d]);
    if Comparison(a[k]).Some? {
      ReadWithin(w, a, b, d, k + 1, ADD_LEVEL, t.r, j);
    }
    assert ParsedCmp(w, b, i + d) == Some((t, j + d));
  }

  lemma {:induction false} UnaryWithin(w: Words, a: seq<Token>, b: seq<Token>, d: nat, i: nat, t: Tree, j: nat)
    requires Within(w, a, b, d) && Gives(w, a, i, UNARY_LEVEL, t, j) && Closed(w, a, b, d, j, UNARY_LEVEL)
    ensures Gives(w, b, i + d, UNARY_LEVEL, t, j + d)
    decreases |a| - i, 11
  {
    assert Like(w, a[i], b[i + d]) && ParsedUnary(w, a, i) == Some((t, j));
    if a[i] == OpTok("-") {
      ReadWithin(w, a, b, d, i + 1, UNARY_LEVEL, t.arg, j);
    } else {
      ReadWithin(w, a, b, d, i, PRIMARY_LEVEL, t, j);
    }
    assert ParsedUnary(w, b, i + d) == Some((t, j + d));
  }

  lemma {:induction false} PrimaryWithin(w: Words, a: seq<Token>, b: seq<Token>, d: nat, i: nat, t: Tree, j: nat)
    requires Within(w, a, b, d) && Gives(w, a, i, PRIMARY_LEVEL, t, j) && Closed(w, a, b, d, j, PRIMARY_LEVEL)
    ensures Gives(w, b, i + d, PRIMARY_LEVEL, t, j + d)
    decreases |a| - i, 8
  {
    assert Like(w, a[i], b[i + d]) && ParsedPrimary(w, a, i) == Some((t, j));
    if a[i] == LParen {
      ReadWithin(w, a, b, d, i + 1, OR_LEVEL, t, j - 1);
      assert Like(w, a[j - 1], b[j - 1 + d]);
      P.ParenStep(w, b, i + d, t, j - 1 + d);
    } else if a[i].IdentTok? {
      NameWithin(w, a, b, d, i, t, j);
    } else {
      assert ParsedPrimary(w, b, i + d) == Some((t, j + d));
    }
  }

  /** Parentheses and dots behind a name are those behind it in `b`. */
  lemma BehindName(w: Words, a: seq<Token>, b: seq<Token>, d: nat, i: nat)
    requires Within(w, a, b, d) && i < |a| && Closed(w, a, b, d, i, PRIMARY_LEVEL)
    ensures (a[i] == LParen) == (b[i + d] == LParen) && (a[i] == Dot) == (b[i + d] == Dot)
    ensures a[i] != Eof ==> (a[i] == RParen) == (b[i + d] == RParen)
  {
  }

  lemma {:induction false} NameWithin(w: Words, a: seq<Token>, b: seq<Token>, d: nat, i: nat, t: Tree, j: nat)
    requires Within(w, a, b, d) && i < |a| && a[i].IdentTok? && a[i] == b[i + d]
    requires ParsedName(w, a, i) == Some((t, j)) && Closed(w, a, b, d, j, PRIMARY_LEVEL)
    ensures Gives(w, b, i + d, PRIMARY_LEVEL, t, j + d)
    decreases |a| - i, 7
  {
    if !IsTrue(w, a[i]) && !IsFalse(w, a[i]) && a[i + 1] == LParen {
      CallFront(w, a, i, t, j);
      CallWithin(w, a, b, d, i, t, j);
      CallBack(w, b, i + d, t, j + d);
    } else {
      if !IsTrue(w, a[i]) && !IsFalse(w, a[i]) {
        BehindName(w, a, b, d, i + 1);
        assert a[i + 1] == Dot ==> Like(w, a[i + 2], b[i + 2 + d]);
      }
      assert ParsedName(w, b, i + d) == Some((t, j + d));
    }
    assert Parsed(w, b, i + d, PRIMARY_LEVEL) == ParsedPrimary(w, b, i + d) == ParsedName(w, b, i + d);
  }

  /** A call: a name and its arguments in parentheses. */
  predicate CallAt(w: Words, toks: seq<Token>, i: nat, t: Tree, j: nat) {
    && Lexed(toks) && i + 3 <= j < |toks| && toks[i].IdentTok? && toks[i + 1] == LParen && toks[j - 1] == RParen
    && !IsTrue(w, toks[i]) && !IsFalse(w, toks[i]) && t.Call? && t.name == w.upper(toks[i].text)
    && if toks[i + 2] == RParen then t.args == [] && j == i + 3
       else ParsedArgs(w, toks, i + 2) == Some((t.args, j - 1))
  }

  lemma CallFront(w: Words, toks: seq<Token>, i: nat, t: Tree, j: nat)
    requires Lexed(toks) && i + 1 < |toks| && toks[i].IdentTok? && !IsTrue(w, toks[i]) && !IsFalse(w, toks[i])
    requires toks[i + 1] == LParen && ParsedName(w, toks, i) == Some((t, j))
    ensures CallAt(w, toks, i, t, j)
  {
  }

  lemma CallBack(w: Words, toks: seq<Token>, i: nat, t: Tree, j: nat)
    requires CallAt(w, toks, i, t, j)
    ensures ParsedName(w, toks, i) == Some((t, j))
  {
  }

  lemma {:induction false} CallWithin(w: Words, a: seq<Token>, b: seq<Token>, d: nat, i: nat, t: Tree, j: nat)
    requires Within(w, a, b, d) && CallAt(w, a, i, t, j)
    ensures CallAt(w, b, i + d, t, j + d)
    decreases |a| - i, 6
  {
    assert forall k :: i <= k < i + 3 ==> Like(w, a[k], b[k + d]);
    assert Like(w, a[j - 1], b[j - 1 + d]);
    if a[i + 2] != RParen {
      ArgsWithin(w, a, b, d, i + 2, t.args, j - 1);
    }
  }

  lemma {:induction false} ArgsWithin(w: Words, a: seq<Token>, b: seq<Token>, d: nat, i: nat, args: seq<Tree>, j: nat)
    requires Within(w, a, b, d) && i < |a| && ParsedArgs(w, a, i) == Some((args, j)) && j < |a| - 1
    ensures i + d < |b| && b[i + d] != RParen && ParsedArgs(w, b, i + d) == Some((args, j + d))
    decreases |a| - i, 31
  {
    var x, k := Parsed(w, a, i, OR_LEVEL).value.0, Parsed(w, a, i, OR_LEVEL).value.1;
    ReadWithin(w, a, b, d, i, OR_LEVEL, x, k);
    assert Like(w, a[k], b[k + d]);
    if a[k] == Comma {
      ArgsWithin(w, a, b, d, k + 1, args[1..], j);
    }
    if b[i + d] == RParen {
      NothingBegins(w, b, i + d, OR_LEVEL);
    }
  }

  /** No expression begins with a closing parenthesis. */
  lemma {:induction false} NothingBegins(w: Words, toks: seq<Token>, i: nat, level: nat)
    requires Lexed(toks) && i < |toks| && toks[i] == RParen && level <= PRIMARY_LEVEL
    ensures Parsed(w, toks, i, level) == None
    decreases PRIMARY_LEVEL - level
  {
    if level < PRIMARY_LEVEL {
      NothingBegins(w, toks, i, level + 1);
    }
  }
}
