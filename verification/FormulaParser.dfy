/**
 The recursive-descent parser as the object with a cursor that the program runs
 (internal/checkexpr/parse.go). Every method reads what FormulaSyntax.Parsed says.
 */
module FormulaParser {
  import opened Util
  import opened FormulaSyntax
  import FormulaLexer

  class Parser {
    const words: Words
    const toks: seq<Token>
    var i: nat

    ghost predicate Valid()
      reads this
    {
      Lexed(toks) && i < |toks|
    }

    constructor (words: Words, toks: seq<Token>)
      requires Lexed(toks)
      ensures Valid() && i == 0 && this.words == words && this.toks == toks
    {
      this.words, this.toks, i := words, toks, 0;
    }

    /** The tree read and the new cursor are those of `p`; a failed read gives none. */
    ghost predicate Read(r: Option<Tree>, p: Parse)
      reads this
    {
      && r == (if p.Some? then Some(p.value.0) else None)
      && (p.Some? ==> i == p.value.1)
    }

    function Peek(): Token
      requires Valid()
      reads this
    {
      toks[i]
    }

    /** Takes a token; the cursor stays in front of the end mark unless that is what it takes. */
    method NextToken() returns (t: Token)
      requires Valid()
      modifies this
      ensures t == toks[old(i)] && i == old(i) + 1
      ensures t != Eof ==> Valid()
    {
      t := toks[i];
      i := i + 1;
    }

    /** A whole formula. */
    method Formula() returns (r: Option<Tree>)
      requires Valid() && i == 0
      modifies this
      ensures r == ParsedFormula(words, toks)
    {
      r := Or();
      if r.Some? && toks[i] != Eof {
        r := None;
      }
    }

    method Or() returns (r: Option<Tree>)
      requires Valid()
      modifies this
      ensures Read(r, Parsed(words, toks, old(i), OR_LEVEL)) && (r.Some? ==> Valid() && old(i) < i)
      decreases |toks| - i, 30
    {
      r := And();
      if r.None? {
        return;
      }
      var l := r.value;
      while IsOr(words, Peek())
        invariant Valid() && old(i) < i
        invariant ParsedRest(words, toks, l, i, OR_LEVEL) == Parsed(words, toks, old(i), OR_LEVEL)
        decreases |toks| - i
      {
        var _ := NextToken();
        var x := And();
        if x.None? {
          return None;
        }
        l := Bin(OrOp, l, x.value);
      }
      return Some(l);
    }

    method And() returns (r: Option<Tree>)
      requires Valid()
      modifies this
      ensures Read(r, Parsed(words, toks, old(i), AND_LEVEL)) && (r.Some? ==> Valid() && old(i) < i)
      decreases |toks| - i, 27
    {
      r := Negation();
      if r.None? {
        return;
      }
      var l := r.value;
      while IsAnd(words, Peek())
        invariant Valid() && old(i) < i
        invariant ParsedRest(words, toks, l, i, AND_LEVEL) == Parsed(words, toks, old(i), AND_LEVEL)
        decreases |toks| - i
      {
        var _ := NextToken();
        var x := Negation();
        if x.None? {
          return None;
        }
        l := Bin(AndOp, l, x.value);
      }
      return Some(l);
    }

    method Negation() returns (r: Option<Tree>)
      requires Valid()
      modifies this
      ensures Read(r, Parsed(words, toks, old(i), NOT_LEVEL)) && (r.Some? ==> Valid() && old(i) < i)
      decreases |toks| - i, 24
    {
      if IsNot(words, Peek()) {
        var _ := NextToken();
        r := Negation();
        if r.Some? {
          r := Some(Not(r.value));
        }
        return;
      }
      r := Compared();
    }

    method Compared() returns (r: Option<Tree>)
      requires Valid()
      modifies this
      ensures Read(r, Parsed(words, toks, old(i), CMP_LEVEL)) && (r.Some? ==> Valid() && old(i) < i)
      decreases |toks| - i, 21
    {
      r := Sum();
      if r.None? {
        return;
      }
      var op := Comparison(Peek());
      if op.Some? {
        var l := r.value;
        var _ := NextToken();
        r := Sum();
        if r.Some? {
          r := Some(Bin(op.value, l, r.value));
        }
      }
    }

    method Sum() returns (r: Option<Tree>)
      requires Valid()
      modifies this
      ensures Read(r, Parsed(words, toks, old(i), ADD_LEVEL)) && (r.Some? ==> Valid() && old(i) < i)
      decreases |toks| - i, 18
    {
      r := Product();
      if r.None? {
        return;
      }
      var l := r.value;
      while Peek() == OpTok("+") || Peek() == OpTok("-")
        invariant Valid() && old(i) < i
        invariant ParsedRest(words, toks, l, i, ADD_LEVEL) == Parsed(words, toks, old(i), ADD_LEVEL)
        decreases |toks| - i
      {
        var t := NextToken();
        var x := Product();
        if x.None? {
          return None;
        }
        l := Bin(if t == OpTok("+") then Add else Sub, l, x.value);
      }
      return Some(l);
    }

    method Product() returns (r: Option<Tree>)
      requires Valid()
      modifies this
      ensures Read(r, Parsed(words, toks, old(i), MUL_LEVEL)) && (r.Some? ==> Valid() && old(i) < i)
      decreases |toks| - i, 15
    {
      r := Unary();
      if r.None? {
        return;
      }
      var l := r.value;
      while Peek() == OpTok("*") || Peek() == OpTok("/")
        invariant Valid() && old(i) < i
        invariant ParsedRest(words, toks, l, i, MUL_LEVEL) == Parsed(words, toks, old(i), MUL_LEVEL)
        decreases |toks| - i
      {
        var t := NextToken();
        var x := Unary();
        if x.None? {
          return None;
        }
        l := Bin(if t == OpTok("*") then Mul else Div, l, x.value);
      }
      return Some(l);
    }

    method Unary() returns (r: Option<Tree>)
      requires Valid()
      modifies this
      ensures Read(r, Parsed(words, toks, old(i), UNARY_LEVEL)) && (r.Some? ==> Valid() && old(i) < i)
      decreases |toks| - i, 12
    {
      if Peek() == OpTok("-") {
        var _ := NextToken();
        r := Unary();
        if r.Some? {
          r := Some(Neg(r.value));
        }
        return;
      }
      r := Primary();
    }

    method Primary() returns (r: Option<Tree>)
      requires Valid()
      modifies this
      ensures Read(r, Parsed(words, toks, old(i), PRIMARY_LEVEL)) && (r.Some? ==> Valid() && old(i) < i)
      decreases |toks| - i, 9
    {
      assert Parsed(words, toks, i, PRIMARY_LEVEL) == ParsedPrimary(words, toks, i);
      var t := Peek();
      match t {
        case NumTok(text) =>
          i := i + 1;
          var x := words.number(text);
          return if x.None? then None else Some(Num(x.value));
        case StrTok(text) =>
          i := i + 1;
          return Some(Str(text));
        case LParen =>
          var _ := NextToken();
          r := Or();
          if r.Some? {
            var close := NextToken();
            if close != RParen {
              r := None;
            }
          }
        case IdentTok(_) =>
          r := Name();
        case _ =>
          i := i + 1;
          return None;
      }
    }

    method Name() returns (r: Option<Tree>)
      requires Valid() && toks[i].IdentTok?
      modifies this
      ensures Read(r, ParsedName(words, toks, old(i))) && (r.Some? ==> Valid() && old(i) < i)
      decreases |toks| - i, 8
    {
      var t := NextToken();
      if IsTrue(words, t) {
        return Some(Bool(true));
      }
      if IsFalse(words, t) {
        return Some(Bool(false));
      }
      if Peek() == LParen {
        var _ := NextToken();
        var args: Option<seq<Tree>> := Some([]);
        if Peek() != RParen {
          args := Args();
        }
        if args.None? {
          return None;
        }
        var close := NextToken();
        return if close == RParen then Some(Call(words.upper(t.text), args.value)) else None;
      }
      if Peek() == Dot {
        var _ := NextToken();
        var f := NextToken();
        return if f.IdentTok? || f.NumTok? then Some(Member(t.text, f.text)) else None;
      }
      return Some(Ident(t.text));
    }

    method Args() returns (r: Option<seq<Tree>>)
      requires Valid()
      modifies this
      ensures var p := ParsedArgs(words, toks, old(i));
              && r == (if p.Some? then Some(p.value.0) else None)
              && (p.Some? ==> i == p.value.1)
      ensures r.Some? ==> Valid() && old(i) < i
      decreases |toks| - i, 31
    {
      var args: seq<Tree> := [];
      PrependedNothing(ParsedArgs(words, toks, i));
      while true
        invariant Valid() && old(i) <= i
        invariant ParsedArgs(words, toks, old(i)) == Prepended(args, ParsedArgs(words, toks, i))
        decreases |toks| - i
      {
        var a := Or();
        if a.None? {
          return None;
        }
        args := args + [a.value];
        if Peek() != Comma {
          return Some(args);
        }
        var _ := NextToken();
        PrependedTwice(args[..|args| - 1], a.value, ParsedArgs(words, toks, i));
      }
    }
  }

  function Prepended(args: seq<Tree>, p: Option<(seq<Tree>, nat)>): Option<(seq<Tree>, nat)> {
    if p.None? then None else Some((args + p.value.0, p.value.1))
  }

  lemma PrependedNothing(p: Option<(seq<Tree>, nat)>)
    ensures Prepended([], p) == p
  {
    if p.Some? {
      assert [] + p.value.0 == p.value.0;
    }
  }

  lemma PrependedTwice(args: seq<Tree>, a: Tree, p: Option<(seq<Tree>, nat)>)
    ensures Prepended(args, Prepended([a], p)) == Prepended(args + [a], p)
  {
    if p.Some? {
      assert args + ([a] + p.value.0) == (args + [a]) + p.value.0;
    }
  }

  /** A text that may begin with an equals sign. */
  method ParseSource(ab: FormulaLexer.Alphabet, w: Words, src: string) returns (r: Option<Tree>)
    ensures r == FormulaLexer.ParsedSource(ab, w, src)
  {
    var s := FormulaLexer.Source(src);
    if s == "" {
      return None;
    }
    var toks := FormulaLexer.Lex(ab, s);
    if toks.None? {
      return None;
    }
    FormulaLexer.LexedIsLexed(ab, s);
    var p := new Parser(w, toks.value);
    r := p.Formula();
  }
}
