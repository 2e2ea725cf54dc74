/**
 Formulas as they are typed (internal/checkexpr/parse.go): what each spelling of an operator
 stands for, that spellings can be exchanged, and how a text is read that is put together
 from texts. Stated on source texts, the way they are read as a whole.
 */
module FormulaSource {
  import opened Util
  import opened FormulaSyntax
  import opened FormulaLexer
  import opened FormulaPieces
  import opened Sequences
  import P = FormulaPrint

  // -------------------------------------------------------------- texts as they are typed

  /** A text that begins with its formula: no blank and no equals sign in front. */
  predicate Begins(ab: Alphabet, s: string) {
    s != "" && !ab.space(s[0]) && s[0] != '='
  }

  /** What the tokens of a text are read as. */
  function Read(ab: Alphabet, w: Words, s: string): Option<Tree> {
    var toks := Tokens(ab, s);
    if toks.None? then None
    else
      LexedIsLexed(ab, s);
      ParsedFormula(w, toks.value + [Eof])
  }

  lemma SomethingIsRead(ab: Alphabet, s: string)
    requires Begins(ab, s)
    ensures Tokens(ab, s) != Some([])
  {
    if Next(ab, s).Take? && Tokens(ab, s).Some? {
      assert |Tokens(ab, s).value| > 0;
    }
  }

  lemma ReadAsSource(ab: Alphabet, w: Words, src: string, s: string)
    requires Tokens(ab, Source(src)) == Tokens(ab, s) && Begins(ab, s)
    ensures ParsedSource(ab, w, src) == Read(ab, w, s)
  {
    SomethingIsRead(ab, s);
    assert Tokens(ab, "") == Some([]);
  }

  lemma ReadAlone(ab: Alphabet, w: Words, s: string)
    requires Sane(ab) && SameBlanks(ab) && Begins(ab, s)
    ensures ParsedSource(ab, w, s) == Read(ab, w, s)
  {
    SourceOfText(ab, "", s[0], s[1..]);
    HeadTail(s);
    Nothing(s);
    ReadAsSource(ab, w, s, s);
  }

  /** Blanks around a formula and an equals sign in front of it are no part of it. */
  lemma AroundAFormula(ab: Alphabet, w: Words, before: string, mid: string, s: string, after: string)
    requires Sane(ab) && SameBlanks(ab) && Begins(ab, s)
    requires AllBlank(ab, before) && AllBlank(ab, mid) && AllBlank(ab, after)
    ensures ParsedSource(ab, w, before + (s + after)) == ParsedSource(ab, w, s)
    ensures ParsedSource(ab, w, before + ("=" + (mid + (s + after)))) == ParsedSource(ab, w, s)
  {
    var text := s + after;
    BlanksBehind(ab, s, after);
    HeadTail(text);
    SourceOfText(ab, before, text[0], text[1..]);
    ReadAsSource(ab, w, before + text, s);
    BlanksInFront(ab, mid, text);
    SourceOfEquation(ab, before, mid + text);
    ReadAsSource(ab, w, before + ("=" + (mid + text)), s);
    ReadAlone(ab, w, s);
  }

  // ------------------------------------------------------------- the spellings of operators

  /** The signs of an operator; of the negation where there is none. */
  predicate SignFor(op: Option<BinOp>, sign: string) {
    match op
    case None => sign == "!"
    case Some(OrOp) => sign == "||"
    case Some(AndOp) => sign == "&&"
    case Some(Eq) => sign == "=" || sign == "=="
    case Some(Ne) => sign == "!=" || sign == "<>" || sign == "\U{2260}"
    case Some(Lt) => sign == "<"
    case Some(Le) => sign == "<=" || sign == "\U{2264}"
    case Some(Gt) => sign == ">"
    case Some(Ge) => sign == ">=" || sign == "\U{2265}"
    case Some(Add) => sign == "+"
    case Some(Sub) => sign == "-"
    case Some(Mul) => sign == "*"
    case Some(Div) => sign == "/"
  }

  predicate IsName(ab: Alphabet, s: string) {
    && s != "" && (ab.letter(s[0]) || s[0] == '_')
    && forall k :: 0 <= k < |s| ==> ab.letter(s[k]) || ab.digit(s[k]) || s[k] == '_' || s[k] == '-'
  }

  /** The words of an operator, in any case and in both languages. */
  predicate WordFor(w: Words, op: Option<BinOp>, word: string) {
    match op
    case None => w.fold(word, "NOT") || w.fold(word, "KH\U{00D4}NG")
    case Some(OrOp) => w.fold(word, "OR") || w.fold(word, "HO\U{1EB6}C")
    case Some(AndOp) => w.fold(word, "AND") || w.fold(word, "V\U{00C0}")
    case _ => false
  }

  predicate Spells(ab: Alphabet, w: Words, op: Option<BinOp>, s: string) {
    SignFor(op, s) || (IsName(ab, s) && WordFor(w, op, s))
  }

  /** Texts that fold to one word fold to each other, and the words of the language do not. */
  ghost predicate TellsApart(w: Words) {
    P.FoldsCase(w) && forall a, b, c :: w.fold(a, b) && w.fold(a, c) ==> w.fold(b, c)
  }

  /** What a spelling is read as, and what that token stands for. */
  predicate TokenFor(w: Words, op: Option<BinOp>, t: Token) {
    && (t.OpTok? || t.IdentTok?)
    && if op.Some? then P.SpellsOnly(w, t, op.value)
       else IsNot(w, t) && forall level: nat :: level <= PRIMARY_LEVEL ==> OpAt(w, t, level) == None
  }

  lemma TokensOfToken(ab: Alphabet, s: string, t: Token)
    requires s != "" && Next(ab, s) == Take(t, |s|)
    ensures Tokens(ab, s) == Some([t])
  {
    Whole(s);
    assert Tokens(ab, "") == Some([]) && [t] + [] == [t];
  }

  lemma TokensOfName(ab: Alphabet, s: string)
    requires Sane(ab) && IsName(ab, s)
    ensures Tokens(ab, s) == Some([IdentTok(s)])
  {
    ReadsWord(ab, IdentTok(s), "");
    Nothing(s);
    TokensOfToken(ab, s, IdentTok(s));
  }

  /** A sign is one token. */
  function SignToken(sign: string): Token {
    if |sign| == 1 && !IsSign(sign[0]) && Single(sign[0]).Some? then Single(sign[0]).value else OpTok(sign)
  }

  lemma TokensOfSign(ab: Alphabet, op: Option<BinOp>, sign: string)
    requires LeavesSigns(ab) && SignFor(op, sign)
    ensures Tokens(ab, sign) == Some([SignToken(sign)])
  {
    Nothing(sign);
    if IsPair(sign) {
      ReadsPair(ab, sign, "");
    } else {
      assert sign == [sign[0]];
      if IsSign(sign[0]) {
        ReadsSingle(ab, sign[0], "");
        SingleOperator(sign[0]);
      }
    }
    TokensOfToken(ab, sign, SignToken(sign));
  }

  lemma ComparisonStandsFor(w: Words, op: BinOp, t: Token)
    requires t.OpTok? && Comparison(t) == Some(op)
    ensures TokenFor(w, Some(op), t)
  {
  }

  lemma OtherSignStandsFor(w: Words, op: Option<BinOp>, t: Token)
    requires t.OpTok? && SignFor(op, t.text) && (op.Some? ==> LevelOf(op.value) != CMP_LEVEL)
    ensures TokenFor(w, op, t)
  {
  }

  lemma SignTokenCompares(op: BinOp, sign: string)
    requires SignFor(Some(op), sign) && LevelOf(op) == CMP_LEVEL
    ensures SignToken(sign).OpTok? && Comparison(SignToken(sign)) == Some(op)
  {
  }

  lemma SignTokenIsSign(op: Option<BinOp>, sign: string)
    requires SignFor(op, sign) && (op.Some? ==> LevelOf(op.value) != CMP_LEVEL)
    ensures SignToken(sign) == OpTok(sign)
  {
  }

  lemma SignStandsFor(w: Words, op: Option<BinOp>, sign: string, t: Token)
    requires SignFor(op, sign) && t == SignToken(sign)
    ensures TokenFor(w, op, t) && t.OpTok?
  {
    if op.Some? && LevelOf(op.value) == CMP_LEVEL {
      SignTokenCompares(op.value, sign);
      ComparisonStandsFor(w, op.value, t);
    } else {
      SignTokenIsSign(op, sign);
      OtherSignStandsFor(w, op, t);
    }
  }

  /** The words of the three operators are told apart. */
  lemma OtherWords(w: Words, s: string, a: string, b: string, k: nat)
    requires TellsApart(w) && w.fold(s, a)
    requires |a| != |b| || (k < |a| && 'A' <= a[k] <= 'Z' && 'A' <= b[k] <= 'Z' && a[k] != b[k])
    ensures !w.fold(s, b)
  {
    assert w.fold(s, b) ==> w.fold(a, b);
    if |a| != |b| {
      P.OtherLengths(w, a, b);
    } else {
      P.OtherCapitals(w, a, b, k);
    }
  }

  lemma WordStandsFor(w: Words, op: Option<BinOp>, word: string)
    requires TellsApart(w) && WordFor(w, op, word)
    ensures TokenFor(w, op, IdentTok(word))
  {
    var a := if op == None then (if w.fold(word, "NOT") then "NOT" else "KH\U{00D4}NG")
             else if op == Some(OrOp) then (if w.fold(word, "OR") then "OR" else "HO\U{1EB6}C")
             else (if w.fold(word, "AND") then "AND" else "V\U{00C0}");
    if op != None {
      OtherWords(w, word, a, "NOT", 0);
      OtherWords(w, word, a, "KH\U{00D4}NG", 0);
    }
    if op != Some(OrOp) {
      OtherWords(w, word, a, "OR", 0);
      OtherWords(w, word, a, "HO\U{1EB6}C", 0);
    }
    if op != Some(AndOp) {
      OtherWords(w, word, a, "AND", 0);
      OtherWords(w, word, a, "V\U{00C0}", 0);
    }
  }

  /** Every spelling of an operator is one token, and that token stands for it. */
  lemma SpellingIsRead(ab: Alphabet, w: Words, op: Option<BinOp>, s: string) returns (t: Token)
    requires LeavesSigns(ab) && TellsApart(w) && Spells(ab, w, op, s)
    ensures s != "" && Tokens(ab, s) == Some([t]) && TokenFor(w, op, t) && (SignFor(op, s) ==> t.OpTok?)
  {
    if SignFor(op, s) {
      TokensOfSign(ab, op, s);
      t := SignToken(s);
      SignStandsFor(w, op, s, t);
    } else {
      TokensOfName(ab, s);
      WordStandsFor(w, op, s);
      t := IdentTok(s);
    }
  }

  // ---------------------------------------------------- spellings exchanged inside a formula

  /** What is read from the tokens around one token. */
  function ReadWith(w: Words, front: seq<Token>, x: Token, back: Option<seq<Token>>): Option<Tree> {
    if back.None? then None else
    var toks := front + ([x] + (back.value + [Eof]));
    if Lexed(toks) then ParsedFormula(w, toks) else None
  }

  /** Where one token is replaced by another that stands for the same, the reading stays. */
  lemma TokenReplaced(w: Words, front: seq<Token>, x: Token, y: Token, back: Option<seq<Token>>)
    requires Like(w, x, y) && y != Eof
    ensures ReadWith(w, front, x, back).Some? ==> ReadWith(w, front, y, back) == ReadWith(w, front, x, back)
  {
    var p := ReadWith(w, front, x, back);
    if p.Some? {
      var a, b := front + ([x] + (back.value + [Eof])), front + ([y] + (back.value + [Eof]));
      assert forall k :: 0 <= k < |a| && k != |front| ==> a[k] == b[k];
      var j := Parsed(w, a, 0, OR_LEVEL).value.1;
      P.ClosersEnd(w, Eof, OR_LEVEL);
      ReadWithin(w, a, b, 0, 0, OR_LEVEL, p.value, j);
    }
  }

  lemma StandForTheSame(w: Words, op: Option<BinOp>, x: Token, y: Token)
    requires TokenFor(w, op, x) && TokenFor(w, op, y) && x.OpTok?
    ensures Like(w, x, y)
  {
    assert OpAt(w, OpTok("-"), ADD_LEVEL) == Some(Sub);
    assert OpAt(w, x, ADD_LEVEL) == OpAt(w, y, ADD_LEVEL);
  }

  /** The tokens of a text with a sign or a word in the middle. */
  lemma TokensAround(ab: Alphabet, pre: string, sign: string, post: string, t: Token)
    requires Sane(ab) && Tokens(ab, pre).Some? && Tokens(ab, sign) == Some([t]) && sign != ""
    requires Parted(ab, pre, sign) && Parted(ab, sign, post)
    ensures Tokens(ab, pre + (sign + post)) ==
            if Tokens(ab, post).None? then None
            else Some(Tokens(ab, pre).value + ([t] + Tokens(ab, post).value))
  {
    TokensInTwo(ab, sign, post);
    assert (sign + post)[0] == sign[0];
    TokensInTwo(ab, pre, sign + post);
  }

  /** Blanks part any two texts. */
  lemma BlanksPart(ab: Alphabet, a: string, gap: string, b: string)
    requires Sane(ab) && AllBlank(ab, gap) && (gap == "" ==> Parted(ab, a, b))
    ensures Parted(ab, a + gap, b) && Parted(ab, a, gap + b)
  {
    if gap == "" {
      Nothing(a);
      Nothing(b);
    } else {
      assert (a + gap)[|a + gap| - 1] == gap[|gap| - 1] && (gap + b)[0] == gap[0];
      assert a != "" ==> !IsPair([a[|a| - 1], gap[0]]);
    }
  }

  lemma ReadOfTokens(ab: Alphabet, w: Words, s: string, front: seq<Token>, t: Token, back: Option<seq<Token>>)
    requires Tokens(ab, s) == if back.None? then None else Some(front + ([t] + back.value))
    ensures Read(ab, w, s) == ReadWith(w, front, t, back)
  {
    if back.Some? {
      LexedIsLexed(ab, s);
      assert front + ([t] + back.value) + [Eof] == front + ([t] + (back.value + [Eof]));
    }
  }

  lemma ReadAround(ab: Alphabet, w: Words, pre: string, sign: string, post: string, t: Token)
    requires Sane(ab) && Tokens(ab, pre).Some? && Tokens(ab, sign) == Some([t]) && sign != ""
    requires Parted(ab, pre, sign) && Parted(ab, sign, post)
    ensures Read(ab, w, pre + (sign + post)) == ReadWith(w, Tokens(ab, pre).value, t, Tokens(ab, post))
  {
    TokensAround(ab, pre, sign, post, t);
    ReadOfTokens(ab, w, pre + (sign + post), Tokens(ab, pre).value, t, Tokens(ab, post));
  }

  /** What is read with a spelling of an operator somewhere in the text. */
  lemma ReadWithSpelling(ab: Alphabet, w: Words, op: Option<BinOp>, pre: string, front: string, v: string,
                         back: string, post: string) returns (t: Token)
    requires LeavesSigns(ab) && TellsApart(w) && Spells(ab, w, op, v)
    requires Tokens(ab, pre).Some? && AllBlank(ab, front) && AllBlank(ab, back)
    requires (front == "" ==> Parted(ab, pre, v)) && (back == "" ==> Parted(ab, v, post))
    requires Begins(ab, pre + (front + (v + (back + post))))
    ensures TokenFor(w, op, t) && (SignFor(op, v) ==> t.OpTok?)
    ensures ParsedSource(ab, w, pre + (front + (v + (back + post))))
            == ReadWith(w, Tokens(ab, pre).value, t, Tokens(ab, post))
  {
    t := SpellingIsRead(ab, w, op, v);
    ReadAlone(ab, w, pre + (front + (v + (back + post))));
    BlanksBehind(ab, pre, front);
    BlanksInFront(ab, back, post);
    BlanksPart(ab, pre, front, v);
    BlanksPart(ab, v, back, post);
    Rejoin(pre, front, v + (back + post));
    ReadAround(ab, w, pre + front, v, back + post, t);
  }

  lemma SameStandFor(w: Words, op: Option<BinOp>, x: Token, y: Token, front: seq<Token>, back: Option<seq<Token>>)
    requires TokenFor(w, op, x) && TokenFor(w, op, y) && x.OpTok?
    ensures ReadWith(w, front, x, back).Some? ==> ReadWith(w, front, y, back) == ReadWith(w, front, x, back)
  {
    StandForTheSame(w, op, x, y);
    TokenReplaced(w, front, x, y, back);
  }

  /** Whatever is read with a sign of an operator is read the same with any other spelling of
      it in that place, with blanks around it or not. A sign can be exchanged for another one
      and back; a word may also be a name, so a text with a word may mean something where
      the sign makes no formula. */
  lemma SpellingsAreExchanged(ab: Alphabet, w: Words, op: Option<BinOp>, pre: string, u: string, post: string,
                              front: string, v: string, back: string)
    requires LeavesSigns(ab) && TellsApart(w) && SignFor(op, u) && Spells(ab, w, op, v)
    requires Tokens(ab, pre).Some? && AllBlank(ab, front) && AllBlank(ab, back)
    requires Parted(ab, pre, u) && Parted(ab, u, post)
    requires (front == "" ==> Parted(ab, pre, v)) && (back == "" ==> Parted(ab, v, post))
    requires Begins(ab, pre + (u + post)) && Begins(ab, pre + (front + (v + (back + post))))
    ensures var one := ParsedSource(ab, w, pre + (u + post));
            var two := ParsedSource(ab, w, pre + (front + (v + (back + post))));
            (one.Some? ==> two == one) && (SignFor(op, v) ==> two == one)
  {
    Nothing(u + post);
    Nothing(post);
    var x := ReadWithSpelling(ab, w, op, pre, "", u, "", post);
    var y := ReadWithSpelling(ab, w, op, pre, front, v, back, post);
    SameStandFor(w, op, x, y, Tokens(ab, pre).value, Tokens(ab, post));
    if SignFor(op, v) {
      SameStandFor(w, op, y, x, Tokens(ab, pre).value, Tokens(ab, post));
    }
  }

  // ----------------------------------------------------- formulas put together from formulas

  /** Tokens that are, as a whole, read by the parser's function of this level, and do not
      begin with a prefix that a looser level would take. */
  predicate Operand(w: Words, toks: seq<Token>, level: nat, t: Tree) {
    && toks != [] && Gives(w, toks + [Eof], 0, level, t, |toks|)
    && (level > NOT_LEVEL ==> !IsNot(w, toks[0])) && (level > UNARY_LEVEL ==> toks[0] != OpTok("-"))
  }

  /** An operand of one level is one of every looser level. */
  lemma {:induction false} OperandIsLooser(w: Words, toks: seq<Token>, level: nat, looser: nat, t: Tree)
    requires Operand(w, toks, level, t) && looser <= level
    ensures Operand(w, toks, looser, t)
    decreases level - looser
  {
    if looser < level {
      P.ClosersEnd(w, Eof, OR_LEVEL);
      P.Descend(w, toks + [Eof], 0, level - 1, t, |toks|);
      OperandIsLooser(w, toks, level - 1, looser, t);
    }
  }

  /** The rest of a chain leaves the left operand, or makes an operator of this level. */
  lemma {:induction false} RestIsChain(w: Words, toks: seq<Token>, l: Tree, i: nat, level: nat, t: Tree, j: nat)
    requires GivesRest(w, toks, l, i, level, t, j)
    ensures (t == l && i == j) || (t.Bin? && LevelOf(t.op) == level)
    decreases |toks| - i
  {
    var op := OpAt(w, toks[i], level);
    if op.Some? {
      var r, k := RestFront(w, toks, l, i, level, t, j, op.value);
      RestIsChain(w, toks, Bin(op.value, l, r), k, level, t, j);
    } else {
      RestEnds(w, toks, l, i, level);
    }
  }

  /** A tree that binds more tightly than a level was read by the next one. */
  lemma ReadByTheNext(w: Words, toks: seq<Token>, level: nat, t: Tree, j: nat)
    requires Gives(w, toks, 0, level, t, j) && P.Level(t) > level
    ensures Gives(w, toks, 0, level + 1, t, j) && P.NoPrefix(w, toks[0], level)
  {
    if IsChain(level) {
      var l, k := ChainFront(w, toks, 0, level, t, j);
      RestIsChain(w, toks, l, k, level, t, j);
    } else if level == NOT_LEVEL {
      assert ParsedNot(w, toks, 0) == Some((t, j));
    } else if level == CMP_LEVEL {
      assert ParsedCmp(w, toks, 0) == Some((t, j));
    } else {
      assert ParsedUnary(w, toks, 0) == Some((t, j));
    }
  }

  lemma {:induction false} OperandIsTighter(w: Words, toks: seq<Token>, level: nat, t: Tree)
    requires Operand(w, toks, OR_LEVEL, t) && level <= P.Level(t)
    ensures level <= PRIMARY_LEVEL && Operand(w, toks, level, t)
  {
    if level > 0 {
      OperandIsTighter(w, toks, level - 1, t);
      ReadByTheNext(w, toks + [Eof], level - 1, t, |toks|);
    }
  }

  /** What a formula is read from, alone. */
  lemma OperandIsFormula(ab: Alphabet, w: Words, s: string, t: Tree)
    requires Sane(ab) && SameBlanks(ab) && Begins(ab, s)
    ensures ParsedSource(ab, w, s) == Some(t) <==>
            Tokens(ab, s).Some? && Operand(w, Tokens(ab, s).value, OR_LEVEL, t)
  {
    ReadAlone(ab, w, s);
    LexedIsLexed(ab, s);
    SomethingIsRead(ab, s);
    if Tokens(ab, s).Some? {
      var toks := Tokens(ab, s).value;
      assert forall j :: 0 <= j < |toks + [Eof]| && (toks + [Eof])[j] == Eof ==> j == |toks|;
    }
  }

  /** An operand stands in a longer sequence of tokens, from `d` on. */
  ghost predicate StandsIn(w: Words, toks: seq<Token>, all: seq<Token>, d: nat) {
    Within(w, toks + [Eof], all, d)
  }

  lemma StandsInParts(w: Words, front: seq<Token>, toks: seq<Token>, back: seq<Token>, all: seq<Token>)
    requires Lexed(toks + [Eof]) && Lexed(all) && back != [] && all == front + (toks + back)
    ensures StandsIn(w, toks, all, |front|) && all[|front| + |toks|] == back[0]
  {
    var a := toks + [Eof];
    forall k | 0 <= k < |a| - 1 ensures Like(w, a[k], all[k + |front|]) {
      assert a[k] == toks[k] == all[k + |front|];
    }
  }

  lemma OperandIsRead(w: Words, toks: seq<Token>, all: seq<Token>, d: nat, level: nat, t: Tree)
    requires Operand(w, toks, level, t) && StandsIn(w, toks, all, d) && P.Ends(w, all[d + |toks|], level)
    ensures Gives(w, all, d, level, t, d + |toks|)
  {
    ReadWithin(w, toks + [Eof], all, d, 0, level, t, |toks|);
  }

  /** A chain that is read from `a` goes on behind it in `b`. */
  lemma {:induction false} RestThrough(w: Words, a: seq<Token>, b: seq<Token>, l: Tree, i: nat, level: nat,
                                       t: Tree, j: nat, u: Tree, k: nat)
    requires Within(w, a, b, 0) && GivesRest(w, a, l, i, level, t, j) && j == |a| - 1
    requires P.Ends(w, b[j], level + 1) && GivesRest(w, b, t, j, level, u, k)
    ensures GivesRest(w, b, l, i, level, u, k)
    decreases |a| - i
  {
    var op := OpAt(w, a[i], level);
    if op.None? {
      RestEnds(w, a, l, i, level);
    } else {
      var r, m := RestFront(w, a, l, i, level, t, j, op.value);
      assert Like(w, a[i], b[i]);
      ReadWithin(w, a, b, 0, i + 1, level + 1, r, m);
      RestThrough(w, a, b, Bin(op.value, l, r), m, level, t, j, u, k);
      RestBack(w, b, l, i, level, op.value, r, m, u, k);
    }
  }

  lemma ChainThrough(w: Words, left: seq<Token>, all: seq<Token>, level: nat, l: Tree, u: Tree, k: nat)
    requires IsChain(level) && Operand(w, left, level, l) && StandsIn(w, left, all, 0)
    requires P.Ends(w, all[|left|], level + 1) && GivesRest(w, all, l, |left|, level, u, k)
    ensures Gives(w, all, 0, level, u, k)
  {
    var x, m := ChainFront(w, left + [Eof], 0, level, l, |left|);
    ReadWithin(w, left + [Eof], all, 0, 0, level + 1, x, m);
    RestThrough(w, left + [Eof], all, x, m, level, l, |left|, u, k);
    ChainBack(w, all, 0, level, x, m, u, k);
  }

  /** The tokens of an operator between two operands, the first of them in front. */
  ghost predicate Between(w: Words, left: seq<Token>, right: seq<Token>, all: seq<Token>, op: BinOp) {
    && StandsIn(w, left, all, 0) && StandsIn(w, right, all, |left| + 1)
    && P.SpellsOnly(w, all[|left|], op)
  }

  lemma ComparisonGives(w: Words, left: seq<Token>, right: seq<Token>, all: seq<Token>, op: BinOp, l: Tree, r: Tree)
    requires LevelOf(op) == CMP_LEVEL && Operand(w, left, ADD_LEVEL, l) && Operand(w, right, ADD_LEVEL, r)
    requires Between(w, left, right, all, op) && P.Ends(w, all[|left| + |right| + 1], ADD_LEVEL)
    ensures Gives(w, all, 0, CMP_LEVEL, Bin(op, l, r), |left| + |right| + 1)
  {
    P.ComparisonSpelled(w, all[|left|], op);
    OperandIsRead(w, left, all, 0, ADD_LEVEL, l);
    OperandIsRead(w, right, all, |left| + 1, ADD_LEVEL, r);
    P.ComparisonOf(w, all, 0, l, |left|, op, r, |left| + |right| + 1);
  }

  lemma ChainGives(w: Words, left: seq<Token>, right: seq<Token>, all: seq<Token>, op: BinOp, l: Tree, r: Tree)
    requires IsChain(LevelOf(op)) && Operand(w, left, LevelOf(op), l) && Operand(w, right, LevelOf(op) + 1, r)
    requires Between(w, left, right, all, op) && P.Ends(w, all[|left| + |right| + 1], LevelOf(op))
    ensures Gives(w, all, 0, LevelOf(op), Bin(op, l, r), |left| + |right| + 1)
  {
    var level, k := LevelOf(op), |left| + |right| + 1;
    P.OperatorsEnd(w, all[|left|], op);
    OperandIsRead(w, right, all, |left| + 1, level + 1, r);
    RestEnds(w, all, Bin(op, l, r), k, level);
    RestBack(w, all, l, |left|, level, op, r, k, Bin(op, l, r), k);
    ChainThrough(w, left, all, level, l, Bin(op, l, r), k);
  }

  /** An operator between its operands is an operand of its own level. */
  lemma InfixOperand(w: Words, left: seq<Token>, x: Token, right: seq<Token>, op: BinOp, l: Tree, r: Tree)
    requires Operand(w, left, P.LeftLevel(op), l) && Operand(w, right, LevelOf(op) + 1, r)
    requires P.SpellsOnly(w, x, op) && (x.OpTok? || x.IdentTok?)
    ensures Operand(w, left + ([x] + right), LevelOf(op), Bin(op, l, r))
  {
    var toks := left + ([x] + right);
    var all := toks + [Eof];
    assert Eof !in left && Eof !in right by {
      assert forall k :: 0 <= k < |left| ==> left[k] == (left + [Eof])[k];
      assert forall k :: 0 <= k < |right| ==> right[k] == (right + [Eof])[k];
    }
    assert all == [] + (left + ([x] + (right + [Eof])));
    StandsInParts(w, [], left, [x] + (right + [Eof]), all);
    assert all == (left + [x]) + (right + [Eof]);
    StandsInParts(w, left + [x], right, [Eof], all);
    assert all[|left|] == x && all[0] == left[0];
    P.ClosersEnd(w, Eof, OR_LEVEL);
    if IsChain(LevelOf(op)) {
      ChainGives(w, left, right, all, op, l, r);
    } else {
      ComparisonGives(w, left, right, all, op, l, r);
    }
  }

  /** A prefix and its level. */
  predicate Prefix(w: Words, x: Token, level: nat) {
    (level == NOT_LEVEL && IsNot(w, x)) || (level == UNARY_LEVEL && x == OpTok("-"))
  }

  function Prefixing(level: nat, t: Tree): Tree {
    if level == NOT_LEVEL then Not(t) else Neg(t)
  }

  lemma PrefixGives(w: Words, all: seq<Token>, level: nat, t: Tree, j: nat)
    requires Lexed(all) && Prefix(w, all[0], level) && Gives(w, all, 1, level, t, j)
    ensures Gives(w, all, 0, level, Prefixing(level, t), j)
  {
    if level == NOT_LEVEL {
      assert Parsed(w, all, 0, level) == ParsedNot(w, all, 0);
    } else {
      assert Parsed(w, all, 0, level) == ParsedUnary(w, all, 0);
    }
  }

  lemma PrefixLexed(x: Token, toks: seq<Token>)
    requires Lexed(toks + [Eof]) && x != Eof
    ensures [x] + toks + [Eof] == [x] + (toks + [Eof]) && Lexed([x] + toks + [Eof])
  {
    var all := [x] + toks + [Eof];
    assert all == [x] + (toks + [Eof]);
    assert forall k :: 0 < k < |all| ==> all[k] == (toks + [Eof])[k - 1];
  }

  /** A prefix makes an operand of its level from one of the same level. */
  lemma PrefixOperand(w: Words, x: Token, toks: seq<Token>, level: nat, t: Tree)
    requires Prefix(w, x, level) && Operand(w, toks, level, t)
    ensures Operand(w, [x] + toks, level, Prefixing(level, t))
  {
    PrefixLexed(x, toks);
    var all := [x] + toks + [Eof];
    StandsInParts(w, [x], toks, [Eof], all);
    P.ClosersEnd(w, Eof, OR_LEVEL);
    OperandIsRead(w, toks, all, 1, level, t);
    PrefixGives(w, all, level, t, 1 + |toks|);
    assert level == UNARY_LEVEL ==> !IsNot(w, x);
  }

  lemma ParensLexed(toks: seq<Token>)
    requires Lexed(toks + [Eof])
    ensures var all := [LParen] + (toks + [RParen]) + [Eof];
            Lexed(all) && all == [LParen] + (toks + [RParen, Eof])
  {
    var all := [LParen] + (toks + [RParen]) + [Eof];
    forall k | 0 <= k < |all| - 1 ensures all[k] != Eof {
      assert 0 < k <= |toks| ==> all[k] == (toks + [Eof])[k - 1];
    }
    assert all == [LParen] + (toks + [RParen, Eof]);
  }

  lemma ParensGive(w: Words, toks: seq<Token>, t: Tree, all: seq<Token>)
    requires Operand(w, toks, OR_LEVEL, t) && Lexed(all) && all == [LParen] + (toks + [RParen, Eof])
    ensures Gives(w, all, 0, PRIMARY_LEVEL, t, |toks| + 2)
  {
    StandsInParts(w, [LParen], toks, [RParen, Eof], all);
    P.ClosersEnd(w, RParen, OR_LEVEL);
    OperandIsRead(w, toks, all, 1, OR_LEVEL, t);
    P.ParenStep(w, all, 0, t, 1 + |toks|);
  }

  /** Parentheses make an operand of any level. */
  lemma ParensOperand(w: Words, toks: seq<Token>, t: Tree, level: nat)
    requires Operand(w, toks, OR_LEVEL, t) && level <= PRIMARY_LEVEL
    ensures Operand(w, [LParen] + (toks + [RParen]), level, t)
  {
    var inner := [LParen] + (toks + [RParen]);
    ParensLexed(toks);
    ParensGive(w, toks, t, inner + [Eof]);
    OperandIsLooser(w, inner, PRIMARY_LEVEL, level, t);
  }

  // ------------------------------------------------------------------ the same, as texts

  /** A formula: a text that is read as this tree. */
  predicate Formula(ab: Alphabet, w: Words, s: string, t: Tree) {
    Begins(ab, s) && ParsedSource(ab, w, s) == Some(t)
  }

  /** A text that can stand as an operand of this level. */
  predicate Part(ab: Alphabet, w: Words, s: string, level: nat, t: Tree) {
    Begins(ab, s) && Tokens(ab, s).Some? && Operand(w, Tokens(ab, s).value, level, t)
  }

  /** An operator as it is typed, with the blanks around it. */
  datatype Sign = Sign(front: string, text: string, back: string)

  function Infix(a: string, sign: Sign, b: string): string {
    a + (sign.front + (sign.text + (sign.back + b)))
  }

  function Parens(s: string): string {
    "(" + (s + ")")
  }

  /** The sign spells the operator, and its token stands apart from those of its sides. */
  predicate Fits(ab: Alphabet, w: Words, op: BinOp, a: string, sign: Sign, b: string) {
    && Spells(ab, w, Some(op), sign.text) && AllBlank(ab, sign.front) && AllBlank(ab, sign.back)
    && (sign.front == "" ==> Parted(ab, a, sign.text)) && (sign.back == "" ==> Parted(ab, sign.text, b))
  }

  lemma FormulaIsPart(ab: Alphabet, w: Words, s: string, t: Tree, level: nat)
    requires Sane(ab) && SameBlanks(ab) && Formula(ab, w, s, t) && level <= P.Level(t)
    ensures Part(ab, w, s, level, t)
  {
    OperandIsFormula(ab, w, s, t);
    OperandIsTighter(w, Tokens(ab, s).value, level, t);
  }

  lemma PartIsFormula(ab: Alphabet, w: Words, s: string, t: Tree, level: nat)
    requires Sane(ab) && SameBlanks(ab) && Part(ab, w, s, level, t)
    ensures Formula(ab, w, s, t)
  {
    OperandIsLooser(w, Tokens(ab, s).value, level, OR_LEVEL, t);
    OperandIsFormula(ab, w, s, t);
  }

  lemma LooserPart(ab: Alphabet, w: Words, s: string, level: nat, looser: nat, t: Tree)
    requires Part(ab, w, s, level, t) && looser <= level
    ensures Part(ab, w, s, looser, t)
  {
    OperandIsLooser(w, Tokens(ab, s).value, level, looser, t);
  }

  lemma TokensOfInfix(ab: Alphabet, w: Words, op: BinOp, a: string, sign: Sign, b: string) returns (x: Token)
    requires LeavesSigns(ab) && TellsApart(w) && Fits(ab, w, op, a, sign, b)
    requires Tokens(ab, a).Some? && Tokens(ab, b).Some?
    ensures P.SpellsOnly(w, x, op) && (x.OpTok? || x.IdentTok?)
    ensures Tokens(ab, Infix(a, sign, b)) == Some(Tokens(ab, a).value + ([x] + Tokens(ab, b).value))
  {
    x := SpellingIsRead(ab, w, Some(op), sign.text);
    BlanksBehind(ab, a, sign.front);
    BlanksInFront(ab, sign.back, b);
    BlanksPart(ab, a, sign.front, sign.text);
    BlanksPart(ab, sign.text, sign.back, b);
    Rejoin(a, sign.front, sign.text + (sign.back + b));
    TokensAround(ab, a + sign.front, sign.text, sign.back + b, x);
  }

  lemma InfixPart(ab: Alphabet, w: Words, op: BinOp, a: string, l: Tree, sign: Sign, b: string, r: Tree)
    requires LeavesSigns(ab) && TellsApart(w) && Fits(ab, w, op, a, sign, b)
    requires Part(ab, w, a, P.LeftLevel(op), l) && Part(ab, w, b, LevelOf(op) + 1, r)
    ensures Part(ab, w, Infix(a, sign, b), LevelOf(op), Bin(op, l, r))
  {
    var x := TokensOfInfix(ab, w, op, a, sign, b);
    InfixOperand(w, Tokens(ab, a).value, x, Tokens(ab, b).value, op, l, r);
    assert Infix(a, sign, b)[0] == a[0];
  }

  lemma TokensOfBracket(ab: Alphabet, c: char, t: Token)
    requires Sane(ab) && c in "(),." && Single(c) == Some(t)
    ensures Tokens(ab, [c]) == Some([t])
  {
    ReadsSingle(ab, c, "");
    Nothing([c]);
    TokensOfToken(ab, [c], t);
  }

  /** Brackets and commas are taken in by no token, and take nothing in. */
  lemma BracketsPart(ab: Alphabet, s: string, c: char, rest: string)
    requires Sane(ab) && c in "(),"
    ensures Parted(ab, s, [c] + rest) && Parted(ab, [c], s)
  {
    SymbolCharacter(ab, c);
    if s != "" {
      assert !IsPair([s[|s| - 1], c]);
    }
  }

  lemma TokensBehindBracket(ab: Alphabet, c: char, t: Token, rest: string)
    requires Sane(ab) && c in "()," && Single(c) == Some(t)
    ensures Tokens(ab, [c] + rest) == Prefixed([t], Tokens(ab, rest))
  {
    TokensOfBracket(ab, c, t);
    BracketsPart(ab, rest, c, "");
    TokensInTwo(ab, [c], rest);
  }

  lemma TokensBeforeBracket(ab: Alphabet, s: string, c: char, t: Token, rest: string)
    requires Sane(ab) && Tokens(ab, s).Some? && c in "()," && Single(c) == Some(t)
    ensures Tokens(ab, s + ([c] + rest)) == Prefixed(Tokens(ab, s).value, Prefixed([t], Tokens(ab, rest)))
  {
    TokensBehindBracket(ab, c, t, rest);
    BracketsPart(ab, s, c, rest);
    TokensInTwo(ab, s, [c] + rest);
  }

  lemma TokensInBrackets(ab: Alphabet, s: string, c: char, x: Token, d: char, y: Token)
    requires Sane(ab) && Tokens(ab, s).Some? && c in "()," && Single(c) == Some(x) && d in "()," && Single(d) == Some(y)
    ensures Tokens(ab, [c] + (s + [d])) == Some([x] + (Tokens(ab, s).value + [y]))
  {
    TokensOfBracket(ab, d, y);
    BracketsPart(ab, s, d, "");
    Nothing([d]);
    TokensInTwo(ab, s, [d]);
    TokensBehindBracket(ab, c, x, s + [d]);
  }

  lemma TokensOfParens(ab: Alphabet, s: string)
    requires Sane(ab) && Tokens(ab, s).Some?
    ensures Tokens(ab, Parens(s)) == Some([LParen] + (Tokens(ab, s).value + [RParen]))
  {
    TokensInBrackets(ab, s, '(', LParen, ')', RParen);
  }

  lemma ParensPart(ab: Alphabet, w: Words, s: string, t: Tree, level: nat)
    requires Sane(ab) && SameBlanks(ab) && Formula(ab, w, s, t) && level <= PRIMARY_LEVEL
    ensures Part(ab, w, Parens(s), level, t)
  {
    OperandIsFormula(ab, w, s, t);
    TokensOfParens(ab, s);
    ParensOperand(w, Tokens(ab, s).value, t, level);
    assert Parens(s)[0] == '(';
  }

  /** No spelling runs on into a parenthesis, and none is run into by one. */
  lemma ParensFit(ab: Alphabet, w: Words, op: BinOp, a: string, sign: Sign, b: string)
    requires LeavesSigns(ab) && TellsApart(w) && Spells(ab, w, Some(op), sign.text)
    requires AllBlank(ab, sign.front) && AllBlank(ab, sign.back)
    requires a != "" && a[|a| - 1] == ')' && b != "" && b[0] == '('
    ensures Fits(ab, w, op, a, sign, b)
  {
    var x := SpellingIsRead(ab, w, Some(op), sign.text);
    assert !IsPair([sign.text[|sign.text| - 1], '(']);
  }

  // ------------------------------------------------------------------------- the results

  /** A formula in parentheses is the same formula. */
  lemma ParenthesesAreRead(ab: Alphabet, w: Words, s: string, t: Tree)
    requires Sane(ab) && SameBlanks(ab) && Formula(ab, w, s, t)
    ensures Formula(ab, w, Parens(s), t)
  {
    ParensPart(ab, w, s, t, OR_LEVEL);
    PartIsFormula(ab, w, Parens(s), t, OR_LEVEL);
  }

  /** Any spelling of an operator between two formulas that bind more tightly, or as tightly on
      the left where the operator chains. */
  lemma OperatorIsRead(ab: Alphabet, w: Words, op: BinOp, a: string, l: Tree, sign: Sign, b: string, r: Tree)
    requires LeavesSigns(ab) && TellsApart(w) && Fits(ab, w, op, a, sign, b)
    requires Formula(ab, w, a, l) && Formula(ab, w, b, r)
    requires P.LeftLevel(op) <= P.Level(l) && LevelOf(op) < P.Level(r)
    ensures Formula(ab, w, Infix(a, sign, b), Bin(op, l, r))
  {
    assert Part(ab, w, Infix(a, sign, b), LevelOf(op), Bin(op, l, r)) by {
      FormulaIsPart(ab, w, a, l, P.LeftLevel(op));
      FormulaIsPart(ab, w, b, r, LevelOf(op) + 1);
      InfixPart(ab, w, op, a, l, sign, b, r);
    }
    PartIsFormula(ab, w, Infix(a, sign, b), Bin(op, l, r), LevelOf(op));
  }

  /** An operator with blanks around it, or none. */
  predicate Spelling(ab: Alphabet, w: Words, op: BinOp, sign: Sign) {
    Spells(ab, w, Some(op), sign.text) && AllBlank(ab, sign.front) && AllBlank(ab, sign.back)
  }

  /** An operator between a part that ends with a parenthesis and one that begins with one. */
  lemma PartsJoined(ab: Alphabet, w: Words, op: BinOp, a: string, l: Tree, left: nat, sign: Sign,
                    b: string, r: Tree, right: nat)
    requires LeavesSigns(ab) && TellsApart(w) && Spelling(ab, w, op, sign)
    requires Part(ab, w, a, left, l) && a[|a| - 1] == ')' && P.LeftLevel(op) <= left
    requires Part(ab, w, b, right, r) && b[0] == '(' && LevelOf(op) < right
    ensures Part(ab, w, Infix(a, sign, b), LevelOf(op), Bin(op, l, r))
  {
    LooserPart(ab, w, a, left, P.LeftLevel(op), l);
    LooserPart(ab, w, b, right, LevelOf(op) + 1, r);
    ParensFit(ab, w, op, a, sign, b);
    InfixPart(ab, w, op, a, l, sign, b, r);
  }

  lemma InParensPart(ab: Alphabet, w: Words, op: BinOp, a: string, l: Tree, sign: Sign, b: string, r: Tree)
    requires LeavesSigns(ab) && TellsApart(w) && Spelling(ab, w, op, sign)
    requires Formula(ab, w, a, l) && Formula(ab, w, b, r)
    ensures Part(ab, w, Infix(Parens(a), sign, Parens(b)), LevelOf(op), Bin(op, l, r))
  {
    ParensPart(ab, w, a, l, PRIMARY_LEVEL);
    ParensPart(ab, w, b, r, PRIMARY_LEVEL);
    PartsJoined(ab, w, op, Parens(a), l, PRIMARY_LEVEL, sign, Parens(b), r, PRIMARY_LEVEL);
  }

  /** Any spelling of an operator between any two formulas in parentheses. */
  lemma OperatorBetweenParentheses(ab: Alphabet, w: Words, op: BinOp, a: string, l: Tree, sign: Sign,
                                   b: string, r: Tree)
    requires LeavesSigns(ab) && TellsApart(w) && Spelling(ab, w, op, sign)
    requires Formula(ab, w, a, l) && Formula(ab, w, b, r)
    ensures Formula(ab, w, Infix(Parens(a), sign, Parens(b)), Bin(op, l, r))
  {
    InParensPart(ab, w, op, a, l, sign, b, r);
    PartIsFormula(ab, w, Infix(Parens(a), sign, Parens(b)), Bin(op, l, r), LevelOf(op));
  }

  predicate Compares(op: BinOp) {
    op in [Eq, Ne, Lt, Le, Gt, Ge]
  }

  /** Which of two neighbours takes the operand between them. */
  predicate BindsTighter(one: BinOp, other: BinOp) {
    || (one in [Mul, Div] && other !in [Mul, Div])
    || (one in [Add, Sub] && other !in [Mul, Div, Add, Sub])
    || (Compares(one) && other in [AndOp, OrOp])
    || (one == AndOp && other == OrOp)
  }

  lemma GroupedLeft(ab: Alphabet, w: Words, op: BinOp, a: string, l: Tree, one: Sign, b: string, m: Tree,
                    other: BinOp, two: Sign, c: string, r: Tree)
    requires LeavesSigns(ab) && TellsApart(w) && Spelling(ab, w, op, one) && Spelling(ab, w, other, two)
    requires Formula(ab, w, a, l) && Formula(ab, w, b, m) && Formula(ab, w, c, r)
    requires P.LeftLevel(other) <= LevelOf(op)
    ensures Formula(ab, w, Infix(Infix(Parens(a), one, Parens(b)), two, Parens(c)), Bin(other, Bin(op, l, m), r))
  {
    var front := Infix(Parens(a), one, Parens(b));
    InParensPart(ab, w, op, a, l, one, b, m);
    ParensPart(ab, w, c, r, PRIMARY_LEVEL);
    PartsJoined(ab, w, other, front, Bin(op, l, m), LevelOf(op), two, Parens(c), r, PRIMARY_LEVEL);
    PartIsFormula(ab, w, Infix(front, two, Parens(c)), Bin(other, Bin(op, l, m), r), LevelOf(other));
  }

  lemma GroupedRight(ab: Alphabet, w: Words, op: BinOp, a: string, l: Tree, one: Sign, b: string, m: Tree,
                     other: BinOp, two: Sign, c: string, r: Tree)
    requires LeavesSigns(ab) && TellsApart(w) && Spelling(ab, w, op, one) && Spelling(ab, w, other, two)
    requires Formula(ab, w, a, l) && Formula(ab, w, b, m) && Formula(ab, w, c, r)
    requires LevelOf(op) < LevelOf(other)
    ensures Formula(ab, w, Infix(Parens(a), one, Infix(Parens(b), two, Parens(c))), Bin(op, l, Bin(other, m, r)))
  {
    var back := Infix(Parens(b), two, Parens(c));
    InParensPart(ab, w, other, b, m, two, c, r);
    ParensPart(ab, w, a, l, PRIMARY_LEVEL);
    PartsJoined(ab, w, op, Parens(a), l, PRIMARY_LEVEL, one, back, Bin(other, m, r), LevelOf(other));
    PartIsFormula(ab, w, Infix(Parens(a), one, back), Bin(op, l, Bin(other, m, r)), LevelOf(op));
  }

  lemma Regrouped(a: string, one: Sign, b: string, two: Sign, c: string)
    ensures Infix(a, one, Infix(b, two, c)) == Infix(Infix(a, one, b), two, c)
  {
    var tail := two.front + (two.text + (two.back + c));
    Rejoin(one.back, b, tail);
    Rejoin(one.text, one.back + b, tail);
    Rejoin(one.front, one.text + (one.back + b), tail);
    Rejoin(a, one.front + (one.text + (one.back + b)), tail);
  }

  lemma BindsByLevel(one: BinOp, other: BinOp)
    ensures BindsTighter(other, one) ==> LevelOf(one) < LevelOf(other)
    ensures !BindsTighter(other, one) && !(Compares(one) && Compares(other)) ==> P.LeftLevel(other) <= LevelOf(one)
  {
  }

  /** Two operators between three formulas in parentheses: the one that binds more tightly takes
      the formula in the middle; of two alike the left one does, but comparisons do not chain. */
  lemma TwoOperatorsAreRead(ab: Alphabet, w: Words, op: BinOp, a: string, l: Tree, one: Sign, b: string, m: Tree,
                            other: BinOp, two: Sign, c: string, r: Tree)
    requires LeavesSigns(ab) && TellsApart(w) && Spelling(ab, w, op, one) && Spelling(ab, w, other, two)
    requires Formula(ab, w, a, l) && Formula(ab, w, b, m) && Formula(ab, w, c, r)
    ensures var text := Infix(Infix(Parens(a), one, Parens(b)), two, Parens(c));
            ParsedSource(ab, w, text) ==
            if BindsTighter(other, op) then Some(Bin(op, l, Bin(other, m, r)))
            else if Compares(op) && Compares(other) then None
            else Some(Bin(other, Bin(op, l, m), r))
  {
    BindsByLevel(op, other);
    var text := Infix(Infix(Parens(a), one, Parens(b)), two, Parens(c));
    if BindsTighter(other, op) {
      Regrouped(Parens(a), one, Parens(b), two, Parens(c));
      assert Formula(ab, w, text, Bin(op, l, Bin(other, m, r))) by {
        GroupedRight(ab, w, op, a, l, one, b, m, other, two, c, r);
      }
    } else if Compares(op) && Compares(other) {
      ComparisonsDoNotChain(ab, w, op, a, l, one, b, m, other, two, c, r);
    } else {
      assert Formula(ab, w, text, Bin(other, Bin(op, l, m), r)) by {
        GroupedLeft(ab, w, op, a, l, one, b, m, other, two, c, r);
      }
    }
  }

  lemma SecondComparisonIsLeft(w: Words, left: seq<Token>, mid: seq<Token>, all: seq<Token>, op: BinOp, l: Tree,
                               m: Tree, other: BinOp)
    requires Compares(op) && Compares(other) && Operand(w, left, PRIMARY_LEVEL, l) && Operand(w, mid, PRIMARY_LEVEL, m)
    requires Between(w, left, mid, all, op) && P.SpellsOnly(w, all[|left| + |mid| + 1], other) && all[0] == left[0]
    ensures ParsedFormula(w, all) == None
  {
    var k := |left| + |mid| + 1;
    P.ComparisonSpelled(w, all[k], other);
    OperandIsLooser(w, left, PRIMARY_LEVEL, ADD_LEVEL, l);
    OperandIsLooser(w, mid, PRIMARY_LEVEL, ADD_LEVEL, m);
    ComparisonGives(w, left, mid, all, op, l, m);
    P.Descend(w, all, 0, NOT_LEVEL, Bin(op, l, m), k);
    P.Descend(w, all, 0, AND_LEVEL, Bin(op, l, m), k);
    P.Descend(w, all, 0, OR_LEVEL, Bin(op, l, m), k);
    assert all[k] != Eof;
  }

  lemma InFront(w: Words, left: seq<Token>, x: Token, mid: seq<Token>, back: seq<Token>, all: seq<Token>, op: BinOp)
    requires Lexed(left + [Eof]) && Lexed(mid + [Eof]) && Lexed(all) && back != [] && P.SpellsOnly(w, x, op)
    requires all == left + ([x] + (mid + back))
    ensures Between(w, left, mid, all, op) && all[|left| + |mid| + 1] == back[0]
  {
    assert all == [] + (left + ([x] + (mid + back)));
    StandsInParts(w, [], left, [x] + (mid + back), all);
    assert all == (left + [x]) + (mid + back);
    StandsInParts(w, left + [x], mid, back, all);
  }

  lemma ComparisonsDoNotChain(ab: Alphabet, w: Words, op: BinOp, a: string, l: Tree, one: Sign, b: string, m: Tree,
                              other: BinOp, two: Sign, c: string, r: Tree)
    requires LeavesSigns(ab) && TellsApart(w) && Spelling(ab, w, op, one) && Spelling(ab, w, other, two)
    requires Formula(ab, w, a, l) && Formula(ab, w, b, m) && Formula(ab, w, c, r)
    requires Compares(op) && Compares(other)
    ensures ParsedSource(ab, w, Infix(Infix(Parens(a), one, Parens(b)), two, Parens(c))) == None
  {
    var pa, pb, pc := Parens(a), Parens(b), Parens(c);
    ParensPart(ab, w, a, l, PRIMARY_LEVEL);
    ParensPart(ab, w, b, m, PRIMARY_LEVEL);
    ParensPart(ab, w, c, r, PRIMARY_LEVEL);
    var bc := Infix(pb, two, pc);
    ParensFit(ab, w, other, pb, two, pc);
    ParensFit(ab, w, op, pa, one, bc);
    var y := TokensOfInfix(ab, w, other, pb, two, pc);
    var x := TokensOfInfix(ab, w, op, pa, one, bc);
    Regrouped(pa, one, pb, two, pc);
    ChainRefused(ab, w, op, pa, l, x, pb, m, other, y, Tokens(ab, pc).value, Infix(pa, one, bc));
  }

  lemma ChainRefused(ab: Alphabet, w: Words, op: BinOp, a: string, l: Tree, x: Token, b: string, m: Tree,
                     other: BinOp, y: Token, behind: seq<Token>, text: string)
    requires Sane(ab) && SameBlanks(ab) && Compares(op) && Compares(other) && Begins(ab, text)
    requires Part(ab, w, a, PRIMARY_LEVEL, l) && Part(ab, w, b, PRIMARY_LEVEL, m)
    requires P.SpellsOnly(w, x, op) && P.SpellsOnly(w, y, other)
    requires Tokens(ab, text) == Some(Tokens(ab, a).value + ([x] + (Tokens(ab, b).value + ([y] + behind))))
    ensures ParsedSource(ab, w, text) == None
  {
    LexedIsLexed(ab, text);
    ReadAlone(ab, w, text);
    TokensRefused(w, op, Tokens(ab, a).value, l, x, Tokens(ab, b).value, m, other, y, behind);
  }

  lemma TokensRefused(w: Words, op: BinOp, left: seq<Token>, l: Tree, x: Token, mid: seq<Token>, m: Tree,
                      other: BinOp, y: Token, behind: seq<Token>)
    requires Compares(op) && Compares(other) && P.SpellsOnly(w, x, op) && P.SpellsOnly(w, y, other)
    requires Operand(w, left, PRIMARY_LEVEL, l) && Operand(w, mid, PRIMARY_LEVEL, m)
    requires Lexed(left + ([x] + (mid + ([y] + behind))) + [Eof])
    ensures ParsedFormula(w, left + ([x] + (mid + ([y] + behind))) + [Eof]) == None
  {
    var all, back := left + ([x] + (mid + ([y] + behind))) + [Eof], [y] + behind + [Eof];
    assert all == left + ([x] + (mid + back));
    InFront(w, left, x, mid, back, all, op);
    SecondComparisonIsLeft(w, left, mid, all, op, l, m, other);
  }

  // ------------------------------------------------------------------------------ prefixes

  /** A prefix and the operand of its level behind it. */
  lemma PrefixPart(ab: Alphabet, w: Words, p: string, x: Token, gap: string, s: string, level: nat, t: Tree)
    requires Sane(ab) && p != "" && Begins(ab, p) && Tokens(ab, p) == Some([x]) && AllBlank(ab, gap)
    requires Prefix(w, x, level) && Part(ab, w, s, level, t) && (gap == "" ==> Parted(ab, p, s))
    ensures Part(ab, w, p + (gap + s), level, Prefixing(level, t))
  {
    TokensWithGap(ab, p, gap, s);
    PrefixOperand(w, x, Tokens(ab, s).value, level, t);
    assert (p + (gap + s))[0] == p[0];
  }

  lemma MinusReads(ab: Alphabet)
    requires LeavesSigns(ab)
    ensures Begins(ab, "-") && Tokens(ab, "-") == Some([OpTok("-")])
  {
    TokensOfSign(ab, Some(Sub), "-");
    SymbolCharacter(ab, '-');
  }

  lemma NegationReads(ab: Alphabet, w: Words, p: string) returns (x: Token)
    requires LeavesSigns(ab) && TellsApart(w) && Spells(ab, w, None, p)
    ensures Begins(ab, p) && Tokens(ab, p) == Some([x]) && IsNot(w, x)
  {
    x := SpellingIsRead(ab, w, None, p);
    SymbolCharacter(ab, '!');
    SymbolCharacter(ab, '=');
  }

  /** Any spelling of NOT, and the minus sign, in front of a formula that binds as tightly. */
  lemma PrefixIsRead(ab: Alphabet, w: Words, p: string, gap: string, s: string, t: Tree)
    requires LeavesSigns(ab) && TellsApart(w) && Formula(ab, w, s, t)
    requires AllBlank(ab, gap) && (gap == "" ==> Parted(ab, p, s))
    ensures Spells(ab, w, None, p) && NOT_LEVEL <= P.Level(t) ==> Formula(ab, w, p + (gap + s), Not(t))
    ensures p == "-" && UNARY_LEVEL <= P.Level(t) ==> Formula(ab, w, p + (gap + s), Neg(t))
  {
    if Spells(ab, w, None, p) && NOT_LEVEL <= P.Level(t) {
      var x := NegationReads(ab, w, p);
      FormulaIsPart(ab, w, s, t, NOT_LEVEL);
      PrefixPart(ab, w, p, x, gap, s, NOT_LEVEL, t);
      PartIsFormula(ab, w, p + (gap + s), Not(t), NOT_LEVEL);
    }
    if p == "-" && UNARY_LEVEL <= P.Level(t) {
      MinusReads(ab);
      FormulaIsPart(ab, w, s, t, UNARY_LEVEL);
      PrefixPart(ab, w, p, OpTok("-"), gap, s, UNARY_LEVEL, t);
      PartIsFormula(ab, w, p + (gap + s), Neg(t), UNARY_LEVEL);
    }
  }

  /** What stands between the prefix and the operator, and what is behind it. */
  lemma PrefixedFirst(p: string, gap: string, a: string, sign: Sign, b: string)
    ensures p + (gap + Infix(a, sign, b)) == Infix(p + (gap + a), sign, b)
  {
    var tail := sign.front + (sign.text + (sign.back + b));
    Rejoin(gap, a, tail);
    Rejoin(p, gap + a, tail);
  }

  lemma PrefixBeforeBracket(ab: Alphabet, p: string, rest: string)
    requires Sane(ab) && rest != "" && rest[0] == '('
    ensures Parted(ab, p, rest)
  {
    BracketsPart(ab, p, '(', rest[1..]);
    HeadTail(rest);
  }

  lemma PrefixedBinds(ab: Alphabet, w: Words, a: string, level: nat, l: Tree, op: BinOp, sign: Sign, b: string, r: Tree)
    requires LeavesSigns(ab) && TellsApart(w) && Spelling(ab, w, op, sign) && Formula(ab, w, b, r)
    requires Part(ab, w, a, level, l) && a[|a| - 1] == ')' && P.LeftLevel(op) <= level
    ensures Formula(ab, w, Infix(a, sign, Parens(b)), Bin(op, l, r))
  {
    ParensPart(ab, w, b, r, PRIMARY_LEVEL);
    PartsJoined(ab, w, op, a, l, level, sign, Parens(b), r, PRIMARY_LEVEL);
    PartIsFormula(ab, w, Infix(a, sign, Parens(b)), Bin(op, l, r), LevelOf(op));
  }

  lemma NegationTakesOne(ab: Alphabet, w: Words, p: string, gap: string, op: BinOp, a: string, l: Tree, sign: Sign,
                         b: string, r: Tree)
    requires LeavesSigns(ab) && TellsApart(w) && Spells(ab, w, None, p) && AllBlank(ab, gap)
    requires Spelling(ab, w, op, sign) && Formula(ab, w, a, l) && Formula(ab, w, b, r)
    requires op == AndOp || op == OrOp
    ensures Formula(ab, w, p + (gap + Infix(Parens(a), sign, Parens(b))), Bin(op, Not(l), r))
  {
    var x := NegationReads(ab, w, p);
    PrefixBeforeBracket(ab, p, Parens(a));
    ParensPart(ab, w, a, l, NOT_LEVEL);
    PrefixPart(ab, w, p, x, gap, Parens(a), NOT_LEVEL, l);
    PrefixedBinds(ab, w, p + (gap + Parens(a)), NOT_LEVEL, Not(l), op, sign, b, r);
    PrefixedFirst(p, gap, Parens(a), sign, Parens(b));
  }

  lemma NegationTakesBoth(ab: Alphabet, w: Words, p: string, gap: string, op: BinOp, a: string, l: Tree, sign: Sign,
                          b: string, r: Tree)
    requires LeavesSigns(ab) && TellsApart(w) && Spells(ab, w, None, p) && AllBlank(ab, gap)
    requires Spelling(ab, w, op, sign) && Formula(ab, w, a, l) && Formula(ab, w, b, r)
    requires op != AndOp && op != OrOp
    ensures Formula(ab, w, p + (gap + Infix(Parens(a), sign, Parens(b))), Not(Bin(op, l, r)))
  {
    var x := NegationReads(ab, w, p);
    var behind := Infix(Parens(a), sign, Parens(b));
    InParensPart(ab, w, op, a, l, sign, b, r);
    LooserPart(ab, w, behind, LevelOf(op), NOT_LEVEL, Bin(op, l, r));
    PrefixBeforeBracket(ab, p, behind);
    PrefixPart(ab, w, p, x, gap, behind, NOT_LEVEL, Bin(op, l, r));
    PartIsFormula(ab, w, p + (gap + behind), Not(Bin(op, l, r)), NOT_LEVEL);
  }

  /** NOT takes a whole comparison or calculation, but no AND and no OR. */
  lemma NegationBinds(ab: Alphabet, w: Words, p: string, gap: string, op: BinOp, a: string, l: Tree, sign: Sign,
                      b: string, r: Tree)
    requires LeavesSigns(ab) && TellsApart(w) && Spells(ab, w, None, p) && AllBlank(ab, gap)
    requires Spelling(ab, w, op, sign) && Formula(ab, w, a, l) && Formula(ab, w, b, r)
    ensures Formula(ab, w, p + (gap + Infix(Parens(a), sign, Parens(b))),
                    if op == AndOp || op == OrOp then Bin(op, Not(l), r) else Not(Bin(op, l, r)))
  {
    if op == AndOp || op == OrOp {
      NegationTakesOne(ab, w, p, gap, op, a, l, sign, b, r);
    } else {
      NegationTakesBoth(ab, w, p, gap, op, a, l, sign, b, r);
    }
  }

  /** The minus sign takes no operator. */
  lemma MinusBinds(ab: Alphabet, w: Words, gap: string, op: BinOp, a: string, l: Tree, sign: Sign, b: string, r: Tree)
    requires LeavesSigns(ab) && TellsApart(w) && AllBlank(ab, gap)
    requires Spelling(ab, w, op, sign) && Formula(ab, w, a, l) && Formula(ab, w, b, r)
    ensures Formula(ab, w, "-" + (gap + Infix(Parens(a), sign, Parens(b))), Bin(op, Neg(l), r))
  {
    MinusReads(ab);
    PrefixBeforeBracket(ab, "-", Parens(a));
    ParensPart(ab, w, a, l, UNARY_LEVEL);
    PrefixPart(ab, w, "-", OpTok("-"), gap, Parens(a), UNARY_LEVEL, l);
    PrefixedBinds(ab, w, "-" + (gap + Parens(a)), UNARY_LEVEL, Neg(l), op, sign, b, r);
    PrefixedFirst("-", gap, Parens(a), sign, Parens(b));
  }
}
