/**
 The lexer of the check formulas (lex in internal/checkexpr/parse.go), and formulas as
 text: what is written, with blanks where a token would run on, is read back, token by
 token and as a tree.
 */
module FormulaLexer {
  import opened Util
  import opened FormulaSyntax
  import opened Sequences
  import Chars = Text
  import FormulaPrint

  /** Go's character classes. */
  datatype Alphabet = Alphabet(digit: char -> bool, letter: char -> bool, space: char -> bool)

  predicate InWord(ab: Alphabet, c: char) {
    ab.letter(c) || ab.digit(c) || c == '_' || c == '-'
  }

  predicate InNumber(ab: Alphabet, c: char) {
    ab.digit(c) || c == '.'
  }

  const OPENING: char := '\U{201C}'
  const CLOSING: char := '\U{201D}'

  predicate IsQuote(c: char) {
    c == '"' || c == '\'' || c == OPENING || c == CLOSING
  }

  /** Whether `c` ends a text that `open` began; an English quote also ends a typographic one. */
  predicate EndsText(open: char, c: char) {
    var end := if open == OPENING then CLOSING else open;
    c == end || (end == CLOSING && c == '"')
  }

  /** The length of the longest front made of such characters. */
  function Run(p: char -> bool, s: string): (n: nat)
    ensures n <= |s|
  {
    if s == "" || !p(s[0]) then 0 else 1 + Run(p, s[1..])
  }

  predicate IsPair(two: string) {
    two in ["<=", ">=", "!=", "<>", "==", "&&", "||"]
  }

  /** A single character that stands for an operator. */
  function Single(c: char): Option<Token> {
    if c in "+-*/=<>!" then Some(OpTok([c]))
    else if c == '\U{2264}' then Some(OpTok("<="))
    else if c == '\U{2265}' then Some(OpTok(">="))
    else if c == '\U{2260}' then Some(OpTok("!="))
    else if c == '(' then Some(LParen)
    else if c == ')' then Some(RParen)
    else if c == ',' then Some(Comma)
    else if c == '.' then Some(Dot)
    else None
  }

  /** The next token, if the text begins with one, and what it takes up; a blank is no token. */
  datatype Lexeme = Skip | Take(tok: Token, size: nat) | Bad

  function Next(ab: Alphabet, s: string): (x: Lexeme)
    requires s != ""
    ensures x.Take? ==> 0 < x.size <= |s| && x.tok != Eof
  {
    var c := s[0];
    if ab.space(c) then Skip
    else if ab.digit(c) then
      var n := Run(x => InNumber(ab, x), s[1..]) + 1;
      Take(NumTok(s[..n]), n)
    else if IsQuote(c) then
      var n := Run(x => !EndsText(c, x), s[1..]) + 1;
      if n >= |s| then Bad else Take(StrTok(s[1..n]), n + 1)
    else if ab.letter(c) || c == '_' then
      var n := Run(x => InWord(ab, x), s[1..]) + 1;
      Take(IdentTok(s[..n]), n)
    else if |s| > 1 && IsPair(s[..2]) then Take(OpTok(s[..2]), 2)
    else match Single(c)
      case Some(t) => Take(t, 1)
      case None => Bad
  }

  /** The tokens of a text, without the end mark. */
  function Tokens(ab: Alphabet, s: string): Option<seq<Token>>
    decreases |s|
  {
    if s == "" then Some([]) else
    match Next(ab, s)
    case Bad => None
    case Skip => Tokens(ab, s[1..])
    case Take(t, n) => Prefixed([t], Tokens(ab, s[n..]))
  }

  function Prefixed(toks: seq<Token>, rest: Option<seq<Token>>): Option<seq<Token>> {
    if rest.None? then None else Some(toks + rest.value)
  }

  lemma PrefixedTwice(toks: seq<Token>, t: Token, rest: Option<seq<Token>>)
    ensures Prefixed(toks, Prefixed([t], rest)) == Prefixed(toks + [t], rest)
  {
    if rest.Some? {
      assert toks + ([t] + rest.value) == (toks + [t]) + rest.value;
    }
  }

  /** What the parser is given always ends with the end mark, and holds no other. */
  lemma {:induction false} LexedIsLexed(ab: Alphabet, s: string)
    ensures Tokens(ab, s).Some? ==> Lexed(Tokens(ab, s).value + [Eof])
    decreases |s|
  {
    if s != "" {
      match Next(ab, s)
      case Bad =>
      case Skip => LexedIsLexed(ab, s[1..]);
      case Take(t, n) =>
        LexedIsLexed(ab, s[n..]);
        if Tokens(ab, s[n..]).Some? {
          var rest := Tokens(ab, s[n..]).value;
          assert Tokens(ab, s).value + [Eof] == [t] + (rest + [Eof]);
        }
    }
  }

  /** The tokens of a text are those read so far and those of the rest. */
  predicate SoFar(ab: Alphabet, s: string, toks: seq<Token>, i: nat)
    requires i <= |s|
  {
    Tokens(ab, s) == Prefixed(toks, Tokens(ab, s[i..]))
  }

  lemma SkipKeeps(ab: Alphabet, s: string, toks: seq<Token>, i: nat)
    requires i < |s| && SoFar(ab, s, toks, i) && Next(ab, s[i..]).Skip?
    ensures SoFar(ab, s, toks, i + 1)
  {
    DropDrop(s, i, 1);
  }

  lemma TakeKeeps(ab: Alphabet, s: string, toks: seq<Token>, i: nat, t: Token, n: nat)
    requires i < |s| && SoFar(ab, s, toks, i) && Next(ab, s[i..]) == Take(t, n)
    ensures i + n <= |s| && SoFar(ab, s, toks + [t], i + n)
  {
    DropDrop(s, i, n);
    PrefixedTwice(toks, t, Tokens(ab, s[i + n..]));
  }

  lemma PrefixedNone(rest: Option<seq<Token>>)
    ensures Prefixed([], rest) == rest
  {
    if rest.Some? {
      Nothing(rest.value);
    }
  }

  method Lex(ab: Alphabet, s: string) returns (out: Option<seq<Token>>)
    ensures out == if Tokens(ab, s).None? then None else Some(Tokens(ab, s).value + [Eof])
  {
    var toks: seq<Token> := [];
    var i := 0;
    Whole(s);
    PrefixedNone(Tokens(ab, s));
    while i < |s|
      invariant 0 <= i <= |s| && SoFar(ab, s, toks, i)
    {
      match Next(ab, s[i..]) {
        case Bad => return None;
        case Skip =>
          SkipKeeps(ab, s, toks, i);
          i := i + 1;
        case Take(t, n) =>
          TakeKeeps(ab, s, toks, i, t, n);
          toks := toks + [t];
          i := i + n;
      }
    }
    Nothing(toks);
    return Some(toks + [Eof]);
  }

  // -------------------------------------------------------------- writing and reading back

  /** The quote a text is written between. */
  function QuoteFor(text: string): char {
    if '"' in text then '\'' else '"'
  }

  /** How a token is written. */
  function Spelled(t: Token): string {
    match t
    case NumTok(text) => text
    case IdentTok(text) => text
    case StrTok(text) => [QuoteFor(text)] + text + [QuoteFor(text)]
    case OpTok(text) => text
    case LParen => "("
    case RParen => ")"
    case Comma => ","
    case Dot => "."
    case Eof => ""
  }

  /** Tokens that can be written so that they are read back. */
  predicate Spellable(ab: Alphabet, t: Token) {
    match t
    case NumTok(text) => text != "" && ab.digit(text[0]) && forall k :: 0 <= k < |text| ==> InNumber(ab, text[k])
    case IdentTok(text) =>
      text != "" && (ab.letter(text[0]) || text[0] == '_') && forall k :: 0 <= k < |text| ==> InWord(ab, text[k])
    case StrTok(text) => '"' !in text || '\'' !in text
    case OpTok(text) => IsPair(text) || (|text| == 1 && text[0] in "+-*/=<>!")
    case Eof => false
    case _ => true
  }

  /** The classes do not overlap, and leave the other characters of the language alone. */
  ghost predicate Sane(ab: Alphabet) {
    && ab.space(' ') && !ab.digit(' ') && !ab.letter(' ')
    && (forall c :: ab.digit(c) ==> !ab.space(c))
    && (forall c :: ab.letter(c) || c == '_' ==> !ab.space(c) && !ab.digit(c) && !IsQuote(c))
    && (forall c :: IsQuote(c) || c in "+-*/=<>!&|(),." ==> !ab.space(c) && !ab.digit(c) && !ab.letter(c))
  }

  predicate AllSpellable(ab: Alphabet, toks: seq<Token>) {
    forall k :: 0 <= k < |toks| ==> Spellable(ab, toks[k])
  }

  /** A token that would take a following character in. */
  predicate RunsOn(ab: Alphabet, t: Token, c: char) {
    match t
    case NumTok(_) => InNumber(ab, c)
    case IdentTok(_) => InWord(ab, c)
    case OpTok(text) => |text| == 1 && IsPair(text + [c])
    case _ => false
  }

  predicate AllBlank(ab: Alphabet, s: string) {
    forall k :: 0 <= k < |s| ==> ab.space(s[k])
  }

  /** What stands behind each token: blanks, and at least one where the token would run on. */
  predicate Apart(ab: Alphabet, toks: seq<Token>, gaps: seq<string>) {
    && |gaps| == |toks| && (forall k :: 0 <= k < |gaps| ==> AllBlank(ab, gaps[k]))
    && (forall k :: 0 <= k < |toks| - 1 && gaps[k] == "" ==>
          Spelled(toks[k + 1]) != "" && !RunsOn(ab, toks[k], Spelled(toks[k + 1])[0]))
  }

  function Written(toks: seq<Token>, gaps: seq<string>): string
    requires |gaps| == |toks|
  {
    if toks == [] then "" else Spelled(toks[0]) + (gaps[0] + Written(toks[1..], gaps[1..]))
  }

  /** A front made of such characters, and something else behind it, is found as the run. */
  lemma {:induction false} RunIs(p: char -> bool, s: string, rest: string)
    requires forall k :: 0 <= k < |s| ==> p(s[k])
    requires rest == "" || !p(rest[0])
    ensures Run(p, s + rest) == |s|
  {
    if s == "" {
      assert s + rest == rest;
    } else {
      RunIs(p, s[1..], rest);
      assert (s + rest)[1..] == s[1..] + rest;
    }
  }

  lemma {:induction false} RunHolds(p: char -> bool, s: string)
    ensures forall k :: 0 <= k < Run(p, s) ==> p(s[k])
  {
    if s != "" && p(s[0]) {
      RunHolds(p, s[1..]);
      forall k | 0 <= k < Run(p, s) ensures p(s[k]) {
        if k > 0 {
          assert s[k] == s[1..][k - 1];
        }
      }
    }
  }

  /** A written token is the next to be read. */
  lemma ReadsWord(ab: Alphabet, t: Token, rest: string)
    requires Sane(ab) && Spellable(ab, t) && (t.NumTok? || t.IdentTok?)
    requires rest == "" || !RunsOn(ab, t, rest[0])
    ensures Next(ab, Spelled(t) + rest) == Take(t, |Spelled(t)|)
  {
    var s := t.text + rest;
    var tail := t.text[1..];
    assert s[1..] == tail + rest && s[..|t.text|] == t.text && s[0] == t.text[0];
    if t.NumTok? {
      RunIs(x => InNumber(ab, x), tail, rest);
    } else {
      RunIs(x => InWord(ab, x), tail, rest);
    }
  }

  lemma ReadsQuoted(ab: Alphabet, q: char, text: string, rest: string)
    requires Sane(ab) && (q == '"' || q == '\'') && q !in text
    ensures Next(ab, [q] + (text + ([q] + rest))) == Take(StrTok(text), |text| + 2)
  {
    var s := [q] + (text + ([q] + rest));
    assert s[0] == q && s[1..] == text + ([q] + rest);
    RunIs(x => !EndsText(q, x), text, [q] + rest);
    assert s[1..|text| + 1] == text;
  }

  lemma ReadsText(ab: Alphabet, t: Token, rest: string)
    requires Sane(ab) && Spellable(ab, t) && t.StrTok?
    ensures Next(ab, Spelled(t) + rest) == Take(t, |Spelled(t)|)
  {
    var q := QuoteFor(t.text);
    ReadsQuoted(ab, q, t.text, rest);
    assert Spelled(t) + rest == [q] + (t.text + ([q] + rest));
  }

  /** No text that holds both quotes is ever read, however it is written; every other one is
      read as it is spelled. */
  lemma TextsThatAreRead(ab: Alphabet, text: string)
    requires Sane(ab)
    ensures (exists s: string :: s != "" && Next(ab, s).Take? && Next(ab, s).tok == StrTok(text))
            <==> Spellable(ab, StrTok(text))
  {
    if Spellable(ab, StrTok(text)) {
      var s := Spelled(StrTok(text));
      ReadsText(ab, StrTok(text), "");
      Nothing(s);
      assert Next(ab, s).Take? && Next(ab, s).tok == StrTok(text);
    }
    if s: string :| s != "" && Next(ab, s).Take? && Next(ab, s).tok == StrTok(text) {
      RunHolds(x => !EndsText(s[0], x), s[1..]);
      assert forall k :: 0 <= k < |text| ==> text[k] == s[1..][k];
    }
  }

  /** The character an operator or a sign begins with belongs to no class. */
  lemma SymbolCharacter(ab: Alphabet, c: char)
    requires Sane(ab) && c in "+-*/=<>!&|(),."
    ensures !ab.space(c) && !ab.digit(c) && !ab.letter(c) && !IsQuote(c) && c != '_'
  {
  }

  lemma ReadsPair(ab: Alphabet, two: string, rest: string)
    requires Sane(ab) && IsPair(two)
    ensures Next(ab, two + rest) == Take(OpTok(two), 2)
  {
    var s := two + rest;
    Parts(two, rest);
    assert s[0] == two[0];
    SymbolCharacter(ab, s[0]);
  }

  /** Any token but a number, a word, a text or a pair. */
  predicate IsSingle(t: Token) {
    if t.OpTok? then !IsPair(t.text) else !t.NumTok? && !t.IdentTok? && !t.StrTok?
  }

  /** A character written for itself. */
  predicate IsSign(c: char) {
    c in "+-*/=<>!" || c in "(),."
  }

  lemma SingleOperator(c: char)
    requires c in "+-*/=<>!"
    ensures Single(c) == Some(OpTok([c]))
  {
  }

  lemma SingleOf(ab: Alphabet, t: Token)
    requires Spellable(ab, t) && IsSingle(t)
    ensures |Spelled(t)| == 1 && IsSign(Spelled(t)[0]) && Single(Spelled(t)[0]) == Some(t)
    ensures !t.OpTok? ==> Spelled(t)[0] in "(),."
  {
    if t.OpTok? {
      assert t.text == [t.text[0]];
      SingleOperator(t.text[0]);
    }
  }

  lemma NoPairOf(ab: Alphabet, t: Token, c: char)
    requires IsSingle(t) && !RunsOn(ab, t, c) && |Spelled(t)| == 1 && (!t.OpTok? ==> Spelled(t)[0] in "(),.")
    ensures !IsPair([Spelled(t)[0], c])
  {
    if t.OpTok? {
      assert t.text + [c] == [t.text[0], c];
    }
  }

  lemma ReadsSingle(ab: Alphabet, c: char, rest: string)
    requires Sane(ab) && IsSign(c) && Single(c).Some? && (rest == "" || !IsPair([c, rest[0]]))
    ensures Next(ab, [c] + rest) == Take(Single(c).value, 1)
  {
    var s := [c] + rest;
    SymbolCharacter(ab, c);
    assert s[0] == c;
    if rest != "" {
      assert s[..2] == [c, rest[0]];
    }
  }

  lemma ReadsSign(ab: Alphabet, t: Token, rest: string)
    requires Sane(ab) && Spellable(ab, t) && IsSingle(t) && (rest == "" || !RunsOn(ab, t, rest[0]))
    ensures Next(ab, Spelled(t) + rest) == Take(t, |Spelled(t)|)
  {
    SingleOf(ab, t);
    if rest != "" {
      NoPairOf(ab, t, rest[0]);
    }
    assert Spelled(t) == [Spelled(t)[0]];
    ReadsSingle(ab, Spelled(t)[0], rest);
  }

  lemma ReadsToken(ab: Alphabet, t: Token, rest: string)
    requires Sane(ab) && Spellable(ab, t) && (rest == "" || !RunsOn(ab, t, rest[0]))
    ensures Next(ab, Spelled(t) + rest) == Take(t, |Spelled(t)|)
  {
    if t.NumTok? || t.IdentTok? {
      ReadsWord(ab, t, rest);
    } else if t.StrTok? {
      ReadsText(ab, t, rest);
    } else if IsSingle(t) {
      ReadsSign(ab, t, rest);
    } else {
      ReadsPair(ab, t.text, rest);
    }
  }

  lemma {:induction false} BlanksInFront(ab: Alphabet, blanks: string, s: string)
    requires AllBlank(ab, blanks)
    ensures Tokens(ab, blanks + s) == Tokens(ab, s)
  {
    if blanks == "" {
      Nothing(s);
    } else {
      assert (blanks + s)[1..] == blanks[1..] + s;
      BlanksInFront(ab, blanks[1..], s);
    }
  }

  /** No token runs on into a blank. */
  lemma BlankStops(ab: Alphabet, t: Token, c: char)
    requires Sane(ab) && ab.space(c)
    ensures !RunsOn(ab, t, c)
  {
    if t.OpTok? && |t.text| == 1 {
      assert (t.text + [c])[1] == c;
    }
  }

  lemma TokensOfOne(ab: Alphabet, t: Token, gap: string, rest: string)
    requires Sane(ab) && Spellable(ab, t) && AllBlank(ab, gap)
    requires gap == "" ==> rest == "" || !RunsOn(ab, t, rest[0])
    ensures Tokens(ab, Spelled(t) + (gap + rest)) == Prefixed([t], Tokens(ab, rest))
  {
    var behind := gap + rest;
    if gap == "" {
      Nothing(rest);
    } else {
      assert behind[0] == gap[0];
      BlankStops(ab, t, gap[0]);
    }
    ReadsToken(ab, t, behind);
    Parts(Spelled(t), behind);
    BlanksInFront(ab, gap, rest);
  }

  lemma WrittenBegins(ab: Alphabet, toks: seq<Token>, gaps: seq<string>)
    requires toks != [] && |gaps| == |toks| && Spellable(ab, toks[0])
    ensures Written(toks, gaps) != "" && Spelled(toks[0]) != "" && Written(toks, gaps)[0] == Spelled(toks[0])[0]
  {
  }

  /** Tokens that are written apart are read back. */
  lemma {:induction false} TokensOfWritten(ab: Alphabet, toks: seq<Token>, gaps: seq<string>)
    requires Sane(ab) && AllSpellable(ab, toks) && Apart(ab, toks, gaps)
    ensures Tokens(ab, Written(toks, gaps)) == Some(toks)
  {
    if toks != [] {
      var rest := Written(toks[1..], gaps[1..]);
      if |toks| > 1 {
        WrittenBegins(ab, toks[1..], gaps[1..]);
      }
      TokensOfOne(ab, toks[0], gaps[0], rest);
      ApartBehind(ab, toks, gaps);
      TokensOfWritten(ab, toks[1..], gaps[1..]);
      HeadTail(toks);
    }
  }

  lemma ApartBehind(ab: Alphabet, toks: seq<Token>, gaps: seq<string>)
    requires toks != [] && Apart(ab, toks, gaps)
    ensures Apart(ab, toks[1..], gaps[1..])
  {
    forall k | 0 <= k < |toks[1..]| - 1 && gaps[1..][k] == ""
      ensures Spelled(toks[1..][k + 1]) != "" && !RunsOn(ab, toks[1..][k], Spelled(toks[1..][k + 1])[0])
    {
      assert gaps[k + 1] == "";
    }
  }

  /** One blank behind each token is always enough. */
  lemma BlankEach(ab: Alphabet, toks: seq<Token>)
    requires Sane(ab)
    ensures Apart(ab, toks, seq(|toks|, k => " "))
  {
  }

  /** A formula that is written down: the tokens it is printed as can be spelled, and stand
      apart where they must. */
  ghost predicate WrittenDown(ab: Alphabet, w: Words, style: FormulaPrint.Style, t: Tree, gaps: seq<string>) {
    var toks := FormulaPrint.Print(style, t, OR_LEVEL);
    && Sane(ab) && FormulaPrint.Sound(w, style) && FormulaPrint.Printable(w, style, t)
    && AllSpellable(ab, toks) && Apart(ab, toks, gaps)
  }

  /** It is read back as the same formula. */
  lemma TextRoundTrip(ab: Alphabet, w: Words, style: FormulaPrint.Style, t: Tree, gaps: seq<string>)
    requires WrittenDown(ab, w, style, t, gaps)
    ensures var toks := Tokens(ab, Written(FormulaPrint.Print(style, t, OR_LEVEL), gaps));
            toks.Some? && Lexed(toks.value + [Eof]) && ParsedFormula(w, toks.value + [Eof]) == Some(t)
  {
    TokensOfWritten(ab, FormulaPrint.Print(style, t, OR_LEVEL), gaps);
    FormulaPrint.ParseInvertsPrint(w, style, t);
  }

  // ----------------------------------------------------------------- around a formula

  /** The text of a formula without the blanks and the equals sign it may begin with. */
  function Source(src: string): string {
    var s := Chars.TrimSpace(src);
    Chars.TrimSpace(if s != "" && s[0] == '=' then s[1..] else s)
  }

  /** What is read from a text; None for one that is empty or no formula. */
  function ParsedSource(ab: Alphabet, w: Words, src: string): Option<Tree> {
    var s := Source(src);
    var toks := Tokens(ab, s);
    if s == "" || toks.None? then None
    else
      LexedIsLexed(ab, s);
      ParsedFormula(w, toks.value + [Eof])
  }

  /** The lexer's blanks are the library's. */
  ghost predicate SameBlanks(ab: Alphabet) {
    forall c :: ab.space(c) <==> Chars.IsSpace(c)
  }

  lemma {:induction false} RunStops(p: char -> bool, s: string, c: char)
    requires !p(c)
    ensures Run(p, s + [c]) == Run(p, s)
  {
    if s != "" && p(s[0]) {
      assert (s + [c])[1..] == s[1..] + [c];
      RunStops(p, s[1..], c);
    }
  }

  lemma {:induction false} RunGoesOn(p: char -> bool, s: string, c: char)
    requires p(c)
    ensures Run(p, s + [c]) == if Run(p, s) == |s| then |s| + 1 else Run(p, s)
  {
    if s != "" && p(s[0]) {
      assert (s + [c])[1..] == s[1..] + [c];
      RunGoesOn(p, s[1..], c);
    } else if s == "" {
      assert [c][1..] == "";
    }
  }

  /** A blank at the end is no part of a token. */
  lemma BlankEndsNothing(ab: Alphabet, s: string, c: char)
    requires Sane(ab) && ab.space(c) && s != ""
    ensures Next(ab, s + [c]) == Next(ab, s)
  {
    var t := s + [c];
    assert t[0] == s[0] && t[1..] == s[1..] + [c];
    if ab.digit(s[0]) {
      RunStops(x => InNumber(ab, x), s[1..], c);
      assert forall n :: 0 <= n <= |s| ==> t[..n] == s[..n];
    } else if IsQuote(s[0]) {
      RunGoesOn(x => !EndsText(s[0], x), s[1..], c);
      assert forall n :: 1 <= n <= |s| ==> t[1..n] == s[1..n];
    } else if ab.letter(s[0]) || s[0] == '_' {
      RunStops(x => InWord(ab, x), s[1..], c);
      assert forall n :: 0 <= n <= |s| ==> t[..n] == s[..n];
    } else if |s| > 1 {
      assert t[..2] == s[..2];
    } else {
      assert t[..2] == [s[0], c];
    }
  }

  lemma {:induction false} BlankAtEnd(ab: Alphabet, s: string, c: char)
    requires Sane(ab) && ab.space(c)
    ensures Tokens(ab, s + [c]) == Tokens(ab, s)
    decreases |s|
  {
    if s == "" {
      assert ("" + [c])[1..] == "";
    } else {
      BlankEndsNothing(ab, s, c);
      match Next(ab, s)
      case Bad =>
      case Skip =>
        assert (s + [c])[1..] == s[1..] + [c];
        BlankAtEnd(ab, s[1..], c);
      case Take(t, n) =>
        assert (s + [c])[n..] == s[n..] + [c];
        BlankAtEnd(ab, s[n..], c);
    }
  }

  lemma {:induction false} TrimmedRight(ab: Alphabet, s: string)
    requires Sane(ab) && SameBlanks(ab)
    ensures Tokens(ab, Chars.TrimSpaceRight(s)) == Tokens(ab, s)
    decreases |s|
  {
    if s != "" && Chars.IsSpace(s[|s| - 1]) {
      var init := s[..|s| - 1];
      TrimmedRight(ab, init);
      BlankAtEnd(ab, init, s[|s| - 1]);
      assert s == init + [s[|s| - 1]];
    }
  }

  lemma {:induction false} TrimmedLeft(ab: Alphabet, s: string)
    requires Sane(ab) && SameBlanks(ab)
    ensures Tokens(ab, Chars.TrimSpaceLeft(s)) == Tokens(ab, s)
    decreases |s|
  {
    if s != "" && Chars.IsSpace(s[0]) {
      TrimmedLeft(ab, s[1..]);
    }
  }

  /** Blanks around a text make no difference to its tokens. */
  lemma TrimmedTokens(ab: Alphabet, s: string)
    requires Sane(ab) && SameBlanks(ab)
    ensures Tokens(ab, Chars.TrimSpace(s)) == Tokens(ab, s)
  {
    TrimmedLeft(ab, s);
    TrimmedRight(ab, Chars.TrimSpaceLeft(s));
  }

  lemma {:induction false} BlanksBehind(ab: Alphabet, s: string, blanks: string)
    requires Sane(ab) && AllBlank(ab, blanks)
    ensures Tokens(ab, s + blanks) == Tokens(ab, s)
    decreases |blanks|
  {
    if blanks == "" {
      Nothing(s);
    } else {
      var n := |blanks| - 1;
      BlanksBehind(ab, s, blanks[..n]);
      BlankAtEnd(ab, s + blanks[..n], blanks[n]);
      assert s + blanks == (s + blanks[..n]) + [blanks[n]];
    }
  }

  /** An equals sign in front is dropped, with the blanks around it. */
  lemma SourceOfEquation(ab: Alphabet, before: string, text: string)
    requires Sane(ab) && SameBlanks(ab) && AllBlank(ab, before)
    ensures Tokens(ab, Source(before + ("=" + text))) == Tokens(ab, text)
  {
    Chars.TrimSpaceBehindBlanks(before, '=', text);
    var s := Chars.TrimSpace(before + ("=" + text));
    assert s[1..] == Chars.TrimSpaceRight(text);
    TrimmedRight(ab, text);
    TrimmedTokens(ab, s[1..]);
  }

  lemma SourceOfText(ab: Alphabet, before: string, c: char, text: string)
    requires Sane(ab) && SameBlanks(ab) && AllBlank(ab, before) && c != '=' && !Chars.IsSpace(c)
    ensures Tokens(ab, Source(before + ([c] + text))) == Tokens(ab, [c] + text)
  {
    var s := Chars.TrimSpace(before + ([c] + text));
    Chars.TrimSpaceBehindBlanks(before, c, text);
    TrimmedTokens(ab, before + ([c] + text));
    TrimmedTokens(ab, s);
    BlanksInFront(ab, before, [c] + text);
  }

  lemma FirstCharacter(ab: Alphabet, w: Words, style: FormulaPrint.Style, t: Tree, gaps: seq<string>)
    requires WrittenDown(ab, w, style, t, gaps) && SameBlanks(ab)
    ensures var text := Written(FormulaPrint.Print(style, t, OR_LEVEL), gaps);
            text != "" && text[0] != '=' && !Chars.IsSpace(text[0])
  {
    var toks := FormulaPrint.Print(style, t, OR_LEVEL);
    FormulaPrint.FirstIsNoComparison(w, style, t, OR_LEVEL);
    WrittenBegins(ab, toks, gaps);
    FirstOfToken(ab, toks[0]);
  }

  lemma FirstOfToken(ab: Alphabet, t: Token)
    requires Sane(ab) && Spellable(ab, t)
    ensures Spelled(t) != "" && !ab.space(Spelled(t)[0])
    ensures Comparison(t).None? ==> Spelled(t)[0] != '='
  {
    if t.OpTok? {
      SymbolCharacter(ab, t.text[0]);
    }
  }

  /** A formula written as text is read back as the same formula, also with blanks around it
      and with an equals sign in front. */
  lemma SourceRoundTrip(ab: Alphabet, w: Words, style: FormulaPrint.Style, t: Tree, gaps: seq<string>,
                        before: string, mid: string, after: string)
    requires WrittenDown(ab, w, style, t, gaps) && SameBlanks(ab)
    requires AllBlank(ab, before) && AllBlank(ab, mid) && AllBlank(ab, after)
    ensures var text := Written(FormulaPrint.Print(style, t, OR_LEVEL), gaps);
            && ParsedSource(ab, w, before + (text + after)) == Some(t)
            && ParsedSource(ab, w, before + ("=" + (mid + (text + after)))) == Some(t)
  {
    var toks := FormulaPrint.Print(style, t, OR_LEVEL);
    var text := Written(toks, gaps);
    TextRoundTrip(ab, w, style, t, gaps);
    TokensOfWritten(ab, toks, gaps);
    FirstCharacter(ab, w, style, t, gaps);
    BlanksBehind(ab, text, after);
    assert [text[0]] + (text + after)[1..] == text + after;
    SourceOfText(ab, before, text[0], (text + after)[1..]);
    BlanksInFront(ab, mid, text + after);
    SourceOfEquation(ab, before, mid + (text + after));
    assert Tokens(ab, "") == Some([]) && toks != [];
  }
}
