/**
 What a formula means, read off the tree: its operators, its literals and fields, and its
 functions by their names, in terms of the values of its parts.
 */
module FormulaMeaning {
  import opened Util
  import opened Sequences
  import opened FormulaSyntax
  import opened FormulaValues
  import opened FormulaEval
  import opened FormulaKnowledge
  import opened FormulaSearch
  import opened FormulaLimits
  import FormulaGaps
  import FormulaLaws
  import Chars = Text

  /** The formula is the amount, the day, the answer. */
  predicate IsAmount(lib: Lib, sc: Scope, t: Tree, x: real) {
    Eval(lib, sc, t) == Some(Amount(x))
  }

  predicate IsDay(lib: Lib, sc: Scope, t: Tree, day: int) {
    var v := Eval(lib, sc, t);
    v.Some? && v.value.Day? && v.value.day == day
  }

  predicate IsAnswer(lib: Lib, sc: Scope, t: Tree, b: bool) {
    Eval(lib, sc, t) == Some(Truth(b))
  }

  /** The check passes if the condition holds, and fails if it does not. */
  predicate Decides(lib: Lib, sc: Scope, t: Tree, holds: bool) {
    Outcome(lib, sc, t) == Some(if holds then Pass else Fail)
  }

  // ------------------------------------------------------------------------ operators

  lemma BinaryOf(lib: Lib, sc: Scope, op: BinOp, l: Tree, r: Tree, a: Value, b: Value)
    requires Eval(lib, sc, l) == Some(a) && Eval(lib, sc, r) == Some(b)
    ensures Eval(lib, sc, Bin(op, l, r)) == Some(Binary(lib, op, a, b))
  {
  }

  lemma AmountsComputed(lib: Lib, x: real, y: real)
    ensures Binary(lib, Add, Amount(x), Amount(y)) == Amount(x + y)
    ensures Binary(lib, Sub, Amount(x), Amount(y)) == Amount(x - y)
    ensures Binary(lib, Mul, Amount(x), Amount(y)) == Amount(x * y)
    ensures Binary(lib, Div, Amount(x), Amount(y)) == if y == 0.0 then Blank([ZeroDivisor]) else Amount(x / y)
  {
  }

  /** The first operand is the left one, and nothing is divided by zero. */
  lemma ArithmeticOfTrees(lib: Lib, sc: Scope, l: Tree, r: Tree, x: real, y: real)
    requires IsAmount(lib, sc, l, x) && IsAmount(lib, sc, r, y)
    ensures IsAmount(lib, sc, Bin(Add, l, r), x + y) && IsAmount(lib, sc, Bin(Sub, l, r), x - y)
    ensures IsAmount(lib, sc, Bin(Mul, l, r), x * y)
    ensures if y != 0.0 then IsAmount(lib, sc, Bin(Div, l, r), x / y) else AsksForData(lib, sc, Bin(Div, l, r))
  {
    forall op ensures Eval(lib, sc, Bin(op, l, r)) == Some(Binary(lib, op, Amount(x), Amount(y))) {
      BinaryOf(lib, sc, op, l, r, Amount(x), Amount(y));
    }
    AmountsComputed(lib, x, y);
    if y == 0.0 {
      BlankAsks(lib, sc, Bin(Div, l, r), [ZeroDivisor]);
    }
  }

  lemma BlankAsks(lib: Lib, sc: Scope, t: Tree, reasons: seq<Reason>)
    requires Eval(lib, sc, t) == Some(Blank(reasons)) && reasons != []
    ensures AsksForData(lib, sc, t)
  {
    assert reasons[0] in Distinct(reasons);
  }

  lemma NegationOfTree(lib: Lib, sc: Scope, t: Tree, x: real)
    requires IsAmount(lib, sc, t, x)
    ensures IsAmount(lib, sc, Neg(t), -x)
  {
    AmountsComputed(lib, 0.0, x);
  }

  lemma AmountsCompared(lib: Lib, x: real, y: real)
    ensures Binary(lib, Eq, Amount(x), Amount(y)) == Truth(-0.005 < x - y < 0.005)
    ensures Binary(lib, Ne, Amount(x), Amount(y)) == Truth(x - y <= -0.005 || 0.005 <= x - y)
    ensures Binary(lib, Lt, Amount(x), Amount(y)) == Truth(x + 0.005 <= y)
    ensures Binary(lib, Le, Amount(x), Amount(y)) == Truth(x < y + 0.005)
    ensures Binary(lib, Gt, Amount(x), Amount(y)) == Truth(y + 0.005 <= x)
    ensures Binary(lib, Ge, Amount(x), Amount(y)) == Truth(y < x + 0.005)
  {
  }

  lemma DecidedBy(lib: Lib, sc: Scope, op: BinOp, l: Tree, r: Tree, a: Value, b: Value, holds: bool)
    requires Eval(lib, sc, l) == Some(a) && Eval(lib, sc, r) == Some(b) && Binary(lib, op, a, b) == Truth(holds)
    ensures Decides(lib, sc, Bin(op, l, r), holds)
  {
    BinaryOf(lib, sc, op, l, r, a, b);
  }

  /** Amounts are compared up to half a cent. */
  lemma AmountsOfTrees(lib: Lib, sc: Scope, l: Tree, r: Tree, x: real, y: real)
    requires IsAmount(lib, sc, l, x) && IsAmount(lib, sc, r, y)
    ensures Decides(lib, sc, Bin(Eq, l, r), -0.005 < x - y < 0.005)
    ensures Decides(lib, sc, Bin(Ne, l, r), x - y <= -0.005 || 0.005 <= x - y)
    ensures Decides(lib, sc, Bin(Lt, l, r), x + 0.005 <= y) && Decides(lib, sc, Bin(Le, l, r), x < y + 0.005)
    ensures Decides(lib, sc, Bin(Gt, l, r), y + 0.005 <= x) && Decides(lib, sc, Bin(Ge, l, r), y < x + 0.005)
  {
    var a, b := Amount(x), Amount(y);
    AmountsCompared(lib, x, y);
    DecidedBy(lib, sc, Eq, l, r, a, b, -0.005 < x - y < 0.005);
    DecidedBy(lib, sc, Ne, l, r, a, b, x - y <= -0.005 || 0.005 <= x - y);
    DecidedBy(lib, sc, Lt, l, r, a, b, x + 0.005 <= y);
    DecidedBy(lib, sc, Le, l, r, a, b, x < y + 0.005);
    DecidedBy(lib, sc, Gt, l, r, a, b, y + 0.005 <= x);
    DecidedBy(lib, sc, Ge, l, r, a, b, y < x + 0.005);
  }

  lemma DaysCompared(lib: Lib, a: Value, b: Value)
    requires a.Day? && b.Day?
    ensures Binary(lib, Eq, a, b) == Truth(a.day == b.day) && Binary(lib, Ne, a, b) == Truth(a.day != b.day)
    ensures Binary(lib, Lt, a, b) == Truth(a.day < b.day) && Binary(lib, Le, a, b) == Truth(a.day <= b.day)
    ensures Binary(lib, Gt, a, b) == Truth(a.day > b.day) && Binary(lib, Ge, a, b) == Truth(a.day >= b.day)
  {
  }

  lemma DaysOfTrees(lib: Lib, sc: Scope, l: Tree, r: Tree, m: int, n: int)
    requires IsDay(lib, sc, l, m) && IsDay(lib, sc, r, n)
    ensures Decides(lib, sc, Bin(Eq, l, r), m == n) && Decides(lib, sc, Bin(Ne, l, r), m != n)
    ensures Decides(lib, sc, Bin(Lt, l, r), m < n) && Decides(lib, sc, Bin(Le, l, r), m <= n)
    ensures Decides(lib, sc, Bin(Gt, l, r), m > n) && Decides(lib, sc, Bin(Ge, l, r), m >= n)
  {
    var a, b := Eval(lib, sc, l).value, Eval(lib, sc, r).value;
    DaysCompared(lib, a, b);
    DecidedBy(lib, sc, Eq, l, r, a, b, m == n);
    DecidedBy(lib, sc, Ne, l, r, a, b, m != n);
    DecidedBy(lib, sc, Lt, l, r, a, b, m < n);
    DecidedBy(lib, sc, Le, l, r, a, b, m <= n);
    DecidedBy(lib, sc, Gt, l, r, a, b, m > n);
    DecidedBy(lib, sc, Ge, l, r, a, b, m >= n);
  }

  lemma AnswersCombined(lib: Lib, p: bool, q: bool)
    ensures Binary(lib, AndOp, Truth(p), Truth(q)) == Truth(p && q)
    ensures Binary(lib, OrOp, Truth(p), Truth(q)) == Truth(p || q)
    ensures Binary(lib, Eq, Truth(p), Truth(q)) == Truth(p == q)
    ensures Binary(lib, Ne, Truth(p), Truth(q)) == Truth(p != q)
  {
  }

  /** Answers: the truth tables, and equality. */
  lemma AnswersOfTrees(lib: Lib, sc: Scope, l: Tree, r: Tree, p: bool, q: bool)
    requires IsAnswer(lib, sc, l, p) && IsAnswer(lib, sc, r, q)
    ensures IsAnswer(lib, sc, Bin(AndOp, l, r), p && q) && IsAnswer(lib, sc, Bin(OrOp, l, r), p || q)
    ensures IsAnswer(lib, sc, Bin(Eq, l, r), p == q) && IsAnswer(lib, sc, Bin(Ne, l, r), p != q)
  {
    AnswersCombined(lib, p, q);
    BinaryOf(lib, sc, AndOp, l, r, Truth(p), Truth(q));
    BinaryOf(lib, sc, OrOp, l, r, Truth(p), Truth(q));
    BinaryOf(lib, sc, Eq, l, r, Truth(p), Truth(q));
    BinaryOf(lib, sc, Ne, l, r, Truth(p), Truth(q));
  }

  lemma AnswerOfTree(lib: Lib, sc: Scope, t: Tree, b: bool)
    requires IsAnswer(lib, sc, t, b)
    ensures Decides(lib, sc, t, b) && IsAnswer(lib, sc, Not(t), !b) && Decides(lib, sc, Not(t), !b)
  {
  }

  /** One side can decide, whatever the other one is. */
  lemma OneSideDecides(lib: Lib, sc: Scope, l: Tree, r: Tree)
    requires Eval(lib, sc, l).Some? && Eval(lib, sc, r).Some?
    ensures IsAnswer(lib, sc, l, false) || IsAnswer(lib, sc, r, false) ==> Decides(lib, sc, Bin(AndOp, l, r), false)
    ensures IsAnswer(lib, sc, l, true) || IsAnswer(lib, sc, r, true) ==> Decides(lib, sc, Bin(OrOp, l, r), true)
  {
  }

  lemma TextsCompared(lib: Lib, s: string, t: string)
    ensures Binary(lib, Eq, Text(s), Text(t)) == Truth(lib.key(Text(s)) == lib.key(Text(t)))
    ensures Binary(lib, Ne, Text(s), Text(t)) == Truth(lib.key(Text(s)) != lib.key(Text(t)))
    ensures forall op :: op == Lt || op == Le || op == Gt || op == Ge ==>
              Binary(lib, op, Text(s), Text(t)) == Says(lib, Incomparable(Text(s), Text(t)))
  {
  }

  /** Texts are equal when their keys are; they are in no order. */
  lemma TextsOfTrees(lib: Lib, sc: Scope, l: Tree, r: Tree, s: string, t: string, op: BinOp)
    requires Eval(lib, sc, l) == Some(Text(s)) && Eval(lib, sc, r) == Some(Text(t))
    ensures Decides(lib, sc, Bin(Eq, l, r), lib.key(Text(s)) == lib.key(Text(t)))
    ensures Decides(lib, sc, Bin(Ne, l, r), lib.key(Text(s)) != lib.key(Text(t)))
    ensures op == Lt || op == Le || op == Gt || op == Ge ==> AsksForData(lib, sc, Bin(op, l, r))
  {
    TextsCompared(lib, s, t);
    DecidedBy(lib, sc, Eq, l, r, Text(s), Text(t), lib.key(Text(s)) == lib.key(Text(t)));
    DecidedBy(lib, sc, Ne, l, r, Text(s), Text(t), lib.key(Text(s)) != lib.key(Text(t)));
    if op == Lt || op == Le || op == Gt || op == Ge {
      BinaryOf(lib, sc, op, l, r, Text(s), Text(t));
      BlankAsks(lib, sc, Bin(op, l, r), Says(lib, Incomparable(Text(s), Text(t))).reasons);
    }
  }

  // -------------------------------------------------------------------------- lists

  /** Two values that go together item by item, `n` of them. */
  predicate Pairs(a: Value, b: Value, n: nat) {
    (a.Many? || b.Many?) && (a.Many? ==> |a.items| == n) && (b.Many? ==> |b.items| == n)
  }

  function ItemAt(v: Value, k: nat): Value
    requires v.Many? ==> k < |v.items|
  {
    if v.Many? then v.items[k] else v
  }

  /** A list is worked on item by item: each item is what the operator makes of two formulas
      that have the values of the two items. */
  lemma ListsOfTrees(lib: Lib, sc: Scope, op: BinOp, l: Tree, r: Tree, n: nat, k: nat, l': Tree, r': Tree)
    requires LevelOf(op) >= CMP_LEVEL && Eval(lib, sc, l).Some? && Eval(lib, sc, r).Some? && k < n
    requires Pairs(Eval(lib, sc, l).value, Eval(lib, sc, r).value, n)
    requires Eval(lib, sc, l') == Some(ItemAt(Eval(lib, sc, l).value, k))
    requires Eval(lib, sc, r') == Some(ItemAt(Eval(lib, sc, r).value, k))
    ensures var v := Eval(lib, sc, Bin(op, l, r));
            && v.Some? && v.value.Many? && |v.value.items| == n
            && Eval(lib, sc, Bin(op, l', r')) == Some(v.value.items[k])
  {
    var a, b := Eval(lib, sc, l).value, Eval(lib, sc, r).value;
    FormulaLaws.ItemByItem(lib, op, a, b, n, k);
    BinaryOf(lib, sc, op, l, r, a, b);
    BinaryOf(lib, sc, op, l', r', ItemAt(a, k), ItemAt(b, k));
  }

  lemma LengthsMustAgree(lib: Lib, sc: Scope, op: BinOp, l: Tree, r: Tree)
    requires LevelOf(op) >= CMP_LEVEL && Eval(lib, sc, l).Some? && Eval(lib, sc, r).Some?
    requires var a, b := Eval(lib, sc, l).value, Eval(lib, sc, r).value;
             a.Many? && b.Many? && |a.items| != |b.items|
    ensures AsksForData(lib, sc, Bin(op, l, r))
  {
    var a, b := Eval(lib, sc, l).value, Eval(lib, sc, r).value;
    BinaryOf(lib, sc, op, l, r, a, b);
    assert Binary(lib, op, a, b) == Blank([LengthsDiffer]);
    BlankAsks(lib, sc, Bin(op, l, r), [LengthsDiffer]);
  }

  // ---------------------------------------------------------------- literals and fields

  /** A literal text that reads as a date is that day. */
  lemma LiteralsOfTrees(lib: Lib, sc: Scope, x: real, b: bool, s: string)
    ensures IsAmount(lib, sc, Num(x), x) && IsAnswer(lib, sc, Bool(b), b)
    ensures match lib.date(Chars.TrimSpace(s))
            case Some(d) => IsDay(lib, sc, Str(s), d)
            case None => Eval(lib, sc, Str(s)) == Some(Text(s))
  {
  }

  /** The field of one document, whose type says how its text is read. */
  predicate HoldsField(sc: Scope, name: string, field: string, typ: string, kind: Kind, text: string) {
    && name in sc.single && name in sc.singleType && sc.singleType[name] == typ
    && typ in sc.types && field in sc.types[typ] && sc.types[typ][field] == kind
    && field in sc.single[name].fields && sc.single[name].fields[field] == text
  }

  lemma FieldIs(lib: Lib, sc: Scope, name: string, field: string, typ: string, kind: Kind, text: string)
    requires HoldsField(sc, name, field, typ, kind, text)
    ensures var t := Chars.TrimSpace(text);
            Eval(lib, sc, Member(name, field)) ==
            Some(if t == "" then Says(lib, Lacks(name, field, sc.single[name].title))
                 else ReadAs(lib, kind, t, Unreadable(name, field, sc.single[name].title, t)))
  {
    assert KindOf(sc, name, field) == kind;
  }

  /** An empty field asks for data; a number or a date that cannot be read does, too; a yes/no
      text that cannot be read stays a text. */
  lemma FieldsOfTrees(lib: Lib, sc: Scope, name: string, field: string, typ: string, kind: Kind, text: string)
    requires HoldsField(sc, name, field, typ, kind, text)
    ensures var t, m := Chars.TrimSpace(text), Member(name, field);
            if t == "" then AsksForData(lib, sc, m)
            else match kind
              case NumberKind => (match lib.number(t)
                case Some(x) => IsAmount(lib, sc, m, x)
                case None => AsksForData(lib, sc, m))
              case DateKind => (match lib.date(t)
                case Some(d) => IsDay(lib, sc, m, d)
                case None => AsksForData(lib, sc, m))
              case TruthKind => (match lib.truth(t)
                case Some(b) => IsAnswer(lib, sc, m, b)
                case None => Eval(lib, sc, m) == Some(Text(t)))
              case TextKind => Eval(lib, sc, m) == Some(Text(t))
  {
    FieldIs(lib, sc, name, field, typ, kind, text);
    var v := Eval(lib, sc, Member(name, field)).value;
    if v.Blank? {
      BlankAsks(lib, sc, Member(name, field), v.reasons);
    }
  }

  /** The scope in which a name stands for one document of the group. */
  function Bound(sc: Scope, name: string, d: Doc): Scope {
    sc.(single := sc.single[name := d], singleType := sc.singleType[name := name])
  }

  /** A name that stands for all documents of a type: the field of each of them, in order. */
  lemma GroupsOfTrees(lib: Lib, sc: Scope, name: string, field: string, k: nat)
    requires name !in sc.single && name !in sc.singleType && name in sc.types && field in sc.types[name]
    requires name in sc.groups && k < |sc.groups[name]|
    ensures var v := Eval(lib, sc, Member(name, field));
            && v.Some? && v.value.Many? && |v.value.items| == |sc.groups[name]|
            && Eval(lib, Bound(sc, name, sc.groups[name][k]), Member(name, field)) == Some(v.value.items[k])
  {
    var sc' := Bound(sc, name, sc.groups[name][k]);
    assert KindOf(sc', name, field) == KindOf(sc, name, field);
  }

  lemma NoDocumentAsks(lib: Lib, sc: Scope, name: string, field: string)
    requires name !in sc.single && name in sc.singleType
    ensures AsksForData(lib, sc, Member(name, field))
  {
    BlankAsks(lib, sc, Member(name, field), Says(lib, NoDocument(name)).reasons);
  }

  /** A name alone is the label of its document, or those of all documents. */
  lemma LabelsOfTrees(lib: Lib, sc: Scope, name: string)
    ensures var v := Eval(lib, sc, Ident(name));
            && (name in sc.single ==> v == Some(Text(sc.single[name].title)))
            && (name !in sc.single && name in sc.groups ==>
                  && v.Some? && v.value.Many? && |v.value.items| == |sc.groups[name]|
                  && forall k :: 0 <= k < |v.value.items| ==> v.value.items[k] == Text(sc.groups[name][k].title))
  {
  }

  // ------------------------------------------------------------------------ functions

  lemma OtherNames(lib: Lib)
    requires SourceNames(lib)
    ensures lib.functions("MIN") == Some(Aggregate(MinOf)) && lib.functions("MAX") == Some(Aggregate(MaxOf))
    ensures lib.functions("AVERAGE") == Some(Aggregate(AverageOf)) && lib.functions("ABS") == Some(Abs)
    ensures lib.functions("BETWEEN") == Some(Between) && lib.functions("AND") == Some(AndAll)
    ensures lib.functions("OR") == Some(OrAll) && lib.functions("DATE_ADD") == Some(DateAdd)
    ensures lib.functions("TODAY") == Some(Today)
  {
  }

  predicate AreAmounts(lib: Lib, sc: Scope, args: seq<Tree>, xs: seq<real>) {
    |args| == |xs| && forall k :: 0 <= k < |args| ==> IsAmount(lib, sc, args[k], xs[k])
  }

  lemma AggregateOfTrees(lib: Lib, sc: Scope, t: Tree, agg: Agg, xs: seq<real>)
    requires t.Call? && lib.functions(t.name) == Some(Aggregate(agg)) && AreAmounts(lib, sc, t.args, xs) && xs != []
    ensures IsAmount(lib, sc, t, Folded(agg, xs))
  {
    var vs := FormulaLaws.AmountList(xs).items;
    CallOf(lib, sc, t.name, Aggregate(agg), t.args, vs);
    FormulaLaws.FlatAmounts(lib, agg, xs);
  }

  /** `t'` is `x` more than `t`. */
  ghost predicate IsMoreBy(lib: Lib, sc: Scope, t: Tree, t': Tree, x: real) {
    exists s :: IsAmount(lib, sc, t, s) && IsAmount(lib, sc, t', s + x)
  }

  lemma SumStep(lib: Lib, sc: Scope, t: Tree, t': Tree, xs: seq<real>, x: real)
    requires t.Call? && t'.Call? && lib.functions(t.name) == lib.functions(t'.name) == Some(Aggregate(SumOf))
    requires AreAmounts(lib, sc, t.args, xs) && AreAmounts(lib, sc, t'.args, xs + [x]) && xs != []
    ensures IsMoreBy(lib, sc, t, t', x)
  {
    AggregateOfTrees(lib, sc, t, SumOf, xs);
    AggregateOfTrees(lib, sc, t', SumOf, xs + [x]);
    TotalSnoc(xs, x);
    assert IsAmount(lib, sc, t, Total(xs)) && IsAmount(lib, sc, t', Total(xs) + x);
  }

  lemma SumOfOneTree(lib: Lib, sc: Scope, t: Tree, x: real)
    requires t.Call? && lib.functions(t.name) == Some(Aggregate(SumOf)) && AreAmounts(lib, sc, t.args, [x])
    ensures IsAmount(lib, sc, t, x)
  {
    AggregateOfTrees(lib, sc, t, SumOf, [x]);
    TotalSnoc([], x);
    Nothing([x]);
  }

  /** SUM of one amount is this amount; one more argument is added. */
  lemma SumOfTrees(lib: Lib, sc: Scope, args: seq<Tree>, xs: seq<real>, u: Tree, x: real)
    requires SourceNames(lib) && AreAmounts(lib, sc, args, xs) && IsAmount(lib, sc, u, x)
    ensures IsAmount(lib, sc, Call("SUM", [u]), x)
    ensures xs != [] ==> IsMoreBy(lib, sc, Call("SUM", args), Call("SUM", args + [u]), x)
  {
    NamesFound(lib);
    SumOfOneTree(lib, sc, Call("SUM", [u]), x);
    if xs != [] {
      SumStep(lib, sc, Call("SUM", args), Call("SUM", args + [u]), xs, x);
    }
  }

  ghost predicate IsLeastOf(lib: Lib, sc: Scope, t: Tree, xs: seq<real>) {
    exists m :: IsAmount(lib, sc, t, m) && m in xs && forall k :: 0 <= k < |xs| ==> m <= xs[k]
  }

  ghost predicate IsGreatestOf(lib: Lib, sc: Scope, t: Tree, xs: seq<real>) {
    exists m :: IsAmount(lib, sc, t, m) && m in xs && forall k :: 0 <= k < |xs| ==> xs[k] <= m
  }

  lemma LeastStep(lib: Lib, sc: Scope, t: Tree, xs: seq<real>)
    requires t.Call? && lib.functions(t.name) == Some(Aggregate(MinOf)) && AreAmounts(lib, sc, t.args, xs) && xs != []
    ensures IsLeastOf(lib, sc, t, xs)
  {
    AggregateOfTrees(lib, sc, t, MinOf, xs);
    LeastIsLeast(xs);
  }

  lemma GreatestStep(lib: Lib, sc: Scope, t: Tree, xs: seq<real>)
    requires t.Call? && lib.functions(t.name) == Some(Aggregate(MaxOf)) && AreAmounts(lib, sc, t.args, xs) && xs != []
    ensures IsGreatestOf(lib, sc, t, xs)
  {
    AggregateOfTrees(lib, sc, t, MaxOf, xs);
    GreatestIsGreatest(xs);
  }

  /** MIN and MAX are among the amounts, below and above all of them. */
  lemma EndsOfTrees(lib: Lib, sc: Scope, args: seq<Tree>, xs: seq<real>)
    requires SourceNames(lib) && AreAmounts(lib, sc, args, xs) && xs != []
    ensures IsLeastOf(lib, sc, Call("MIN", args), xs) && IsGreatestOf(lib, sc, Call("MAX", args), xs)
  {
    OtherNames(lib);
    LeastStep(lib, sc, Call("MIN", args), xs);
    GreatestStep(lib, sc, Call("MAX", args), xs);
  }

  /** `t'` is the n-th part of `t`. */
  ghost predicate IsShareOf(lib: Lib, sc: Scope, t: Tree, t': Tree, n: nat) {
    exists a, s :: IsAmount(lib, sc, t', a) && IsAmount(lib, sc, t, s) && a * n as real == s
  }

  lemma ShareStated(lib: Lib, sc: Scope, t: Tree, t': Tree, s: real, n: nat)
    requires n > 0 && IsAmount(lib, sc, t, s) && IsAmount(lib, sc, t', s / n as real)
    ensures IsShareOf(lib, sc, t, t', n)
  {
    var a := s / n as real;
    FormulaLaws.Undivided(s, n as real);
    assert IsAmount(lib, sc, t', a) && a * n as real == s;
  }

  lemma AverageStep(lib: Lib, sc: Scope, t: Tree, t': Tree, xs: seq<real>)
    requires t.Call? && lib.functions(t.name) == Some(Aggregate(SumOf)) && AreAmounts(lib, sc, t.args, xs) && xs != []
    requires t'.Call? && lib.functions(t'.name) == Some(Aggregate(AverageOf)) && t'.args == t.args
    ensures IsShareOf(lib, sc, t, t', |xs|)
  {
    AggregateOfTrees(lib, sc, t, SumOf, xs);
    AggregateOfTrees(lib, sc, t', AverageOf, xs);
    ShareStated(lib, sc, t, t', Total(xs), |xs|);
  }

  /** AVERAGE times the number of amounts is their SUM. */
  lemma AverageOfTrees(lib: Lib, sc: Scope, args: seq<Tree>, xs: seq<real>)
    requires SourceNames(lib) && AreAmounts(lib, sc, args, xs) && xs != []
    ensures IsShareOf(lib, sc, Call("SUM", args), Call("AVERAGE", args), |xs|)
  {
    NamesFound(lib);
    OtherNames(lib);
    AverageStep(lib, sc, Call("SUM", args), Call("AVERAGE", args), xs);
  }

  // ----------------------------------------------------------------- counting, choosing

  predicate AreSingle(lib: Lib, sc: Scope, args: seq<Tree>, vs: seq<Value>) {
    |args| == |vs| && forall k :: 0 <= k < |args| ==> Eval(lib, sc, args[k]) == Some(vs[k]) && !vs[k].Many?
  }

  lemma {:induction false} KnownSnoc(vs: seq<Value>, v: Value)
    ensures Known(vs + [v]) == Known(vs) + if v.Blank? then 0 else 1
  {
    if vs == [] {
      assert [] + [v] == [v] && [v][1..] == [];
    } else {
      assert (vs + [v])[1..] == vs[1..] + [v];
      KnownSnoc(vs[1..], v);
    }
  }

  lemma CountStep(lib: Lib, sc: Scope, t: Tree, t': Tree, vs: seq<Value>, v: Value)
    requires t.Call? && t'.Call? && lib.functions(t.name) == lib.functions(t'.name) == Some(Count)
    requires AreSingle(lib, sc, t.args, vs) && AreSingle(lib, sc, t'.args, vs + [v]) && !v.Many?
    ensures IsMoreBy(lib, sc, t, t', if v.Blank? then 0.0 else 1.0)
  {
    CallOf(lib, sc, t.name, Count, t.args, vs);
    CallOf(lib, sc, t'.name, Count, t'.args, vs + [v]);
    FlatOfScalars(vs);
    FlatOfScalars(vs + [v]);
    KnownSnoc(vs, v);
    assert IsAmount(lib, sc, t, Known(vs) as real) && IsAmount(lib, sc, t', Known(vs + [v]) as real);
  }

  lemma CountOfOne(lib: Lib, sc: Scope, t: Tree, v: Value)
    requires t.Call? && lib.functions(t.name) == Some(Count) && AreSingle(lib, sc, t.args, [v])
    ensures IsAmount(lib, sc, t, if v.Blank? then 0.0 else 1.0)
  {
    CallOf(lib, sc, t.name, Count, t.args, [v]);
    FlatOfScalars([v]);
    KnownSnoc([], v);
    Nothing([v]);
  }

  /** COUNT counts one more for every value that is there, and nothing for a gap. */
  lemma CountOfTrees(lib: Lib, sc: Scope, args: seq<Tree>, vs: seq<Value>, u: Tree, v: Value)
    requires SourceNames(lib) && AreSingle(lib, sc, args, vs) && Eval(lib, sc, u) == Some(v) && !v.Many?
    ensures IsAmount(lib, sc, Call("COUNT", [u]), if v.Blank? then 0.0 else 1.0)
    ensures IsMoreBy(lib, sc, Call("COUNT", args), Call("COUNT", args + [u]), if v.Blank? then 0.0 else 1.0)
  {
    NamesFound(lib);
    CountOfOne(lib, sc, Call("COUNT", [u]), v);
    CountStep(lib, sc, Call("COUNT", args), Call("COUNT", args + [u]), vs, v);
  }

  lemma ChoiceStep(lib: Lib, sc: Scope, t: Tree, c: Tree, b: bool)
    requires t.Call? && lib.functions(t.name) == Some(If) && 2 <= |t.args| <= 3 && t.args[0] == c
    requires IsAnswer(lib, sc, c, b) && forall k :: 0 <= k < |t.args| ==> Eval(lib, sc, t.args[k]).Some?
    ensures Eval(lib, sc, t) == if b then Eval(lib, sc, t.args[1])
                                else if |t.args| == 3 then Eval(lib, sc, t.args[2]) else Some(Truth(true))
  {
    var vs := seq(|t.args|, k requires 0 <= k < |t.args| => Eval(lib, sc, t.args[k]).value);
    CallOf(lib, sc, t.name, If, t.args, vs);
  }

  lemma ChoiceOfThree(lib: Lib, sc: Scope, t: Tree, c: Tree, b: bool, x: Tree, y: Tree)
    requires t.Call? && lib.functions(t.name) == Some(If) && t.args == [c, x, y]
    requires IsAnswer(lib, sc, c, b) && Eval(lib, sc, x).Some? && Eval(lib, sc, y).Some?
    ensures Eval(lib, sc, t) == Eval(lib, sc, if b then x else y)
  {
    ChoiceStep(lib, sc, t, c, b);
  }

  lemma ChoiceOfTwo(lib: Lib, sc: Scope, t: Tree, c: Tree, b: bool, x: Tree)
    requires t.Call? && lib.functions(t.name) == Some(If) && t.args == [c, x]
    requires IsAnswer(lib, sc, c, b) && Eval(lib, sc, x).Some?
    ensures Eval(lib, sc, t) == if b then Eval(lib, sc, x) else Some(Truth(true))
  {
    ChoiceStep(lib, sc, t, c, b);
  }

  /** IF is its second argument when the first is yes, and its third when it is no; without a
      third a check passes that does not apply. */
  lemma ChoiceOfTrees(lib: Lib, sc: Scope, c: Tree, b: bool, x: Tree, y: Tree)
    requires SourceNames(lib) && IsAnswer(lib, sc, c, b) && Eval(lib, sc, x).Some? && Eval(lib, sc, y).Some?
    ensures Eval(lib, sc, Call("IF", [c, x, y])) == Eval(lib, sc, if b then x else y)
    ensures Eval(lib, sc, Call("IF", [c, x])) == if b then Eval(lib, sc, x) else Some(Truth(true))
  {
    NamesFound(lib);
    ChoiceOfThree(lib, sc, Call("IF", [c, x, y]), c, b, x, y);
    ChoiceOfTwo(lib, sc, Call("IF", [c, x]), c, b, x);
  }

  predicate AreAnswers(lib: Lib, sc: Scope, args: seq<Tree>, bs: seq<bool>) {
    |args| == |bs| && forall k :: 0 <= k < |args| ==> IsAnswer(lib, sc, args[k], bs[k])
  }

  function Truths(bs: seq<bool>): seq<Value> {
    seq(|bs|, k requires 0 <= k < |bs| => Truth(bs[k]))
  }

  predicate AllOf(bs: seq<bool>) {
    forall k :: 0 <= k < |bs| ==> bs[k]
  }

  predicate OneOf(bs: seq<bool>) {
    exists k :: 0 <= k < |bs| && bs[k]
  }

  lemma FirstAndRest(bs: seq<bool>)
    requires bs != []
    ensures AllOf(bs) <==> bs[0] && AllOf(bs[1..])
    ensures OneOf(bs) <==> bs[0] || OneOf(bs[1..])
    ensures Truths(bs)[1..] == Truths(bs[1..])
  {
    assert forall k :: 0 < k < |bs| ==> bs[k] == bs[1..][k - 1];
    assert forall k :: 0 <= k < |bs[1..]| ==> bs[1..][k] == bs[k + 1];
  }

  lemma {:induction false} FoldOfAnswers(conj: bool, b: bool, bs: seq<bool>)
    ensures FoldLogic(conj, Truth(b), Truths(bs)) == Truth(if conj then b && AllOf(bs) else b || OneOf(bs))
    decreases |bs|
  {
    if bs != [] {
      var first := if conj then b && bs[0] else b || bs[0];
      assert Logic(conj, Truth(b), Truth(bs[0])) == Truth(first);
      FirstAndRest(bs);
      FoldOfAnswers(conj, first, bs[1..]);
    }
  }

  lemma FoldStep(lib: Lib, sc: Scope, t: Tree, fn: Fn, bs: seq<bool>)
    requires t.Call? && lib.functions(t.name) == Some(fn) && (fn == AndAll || fn == OrAll)
    requires AreAnswers(lib, sc, t.args, bs) && bs != []
    ensures IsAnswer(lib, sc, t, if fn == AndAll then AllOf(bs) else OneOf(bs))
  {
    CallOf(lib, sc, t.name, fn, t.args, Truths(bs));
    FirstAndRest(bs);
    FoldOfAnswers(fn == AndAll, bs[0], bs[1..]);
  }

  /** AND and OR of any number of answers. */
  lemma LogicOfTrees(lib: Lib, sc: Scope, args: seq<Tree>, bs: seq<bool>)
    requires SourceNames(lib) && AreAnswers(lib, sc, args, bs) && bs != []
    ensures IsAnswer(lib, sc, Call("AND", args), AllOf(bs)) && IsAnswer(lib, sc, Call("OR", args), OneOf(bs))
  {
    OtherNames(lib);
    FoldStep(lib, sc, Call("AND", args), AndAll, bs);
    FoldStep(lib, sc, Call("OR", args), OrAll, bs);
  }

  // -------------------------------------------------------------- numbers, days, texts

  lemma RangeOfAmounts(lib: Lib, x: real, lo: real, hi: real)
    ensures AllInRange(lib, Amount(x), Amount(lo), Amount(hi)) == Truth(lo < x + 0.005 && x < hi + 0.005)
  {
    assert Compared(lib, Ge, Amount(x), Amount(lo)) == Truth(lo < x + 0.005);
    assert Compared(lib, Le, Amount(x), Amount(hi)) == Truth(x < hi + 0.005);
  }

  /** From the one bound to the other, up to half a cent. */
  predicate InBounds(x: real, lo: real, hi: real) {
    lo < x + 0.005 && x < hi + 0.005
  }

  lemma RangeStep(lib: Lib, sc: Scope, t: Tree, x: real, lo: real, hi: real, holds: bool)
    requires t.Call? && lib.functions(t.name) == Some(Between) && |t.args| == 3 && IsAmount(lib, sc, t.args[0], x)
    requires IsAmount(lib, sc, t.args[1], lo) && IsAmount(lib, sc, t.args[2], hi) && holds == InBounds(x, lo, hi)
    ensures IsAnswer(lib, sc, t, holds)
  {
    CallOf(lib, sc, t.name, Between, t.args, [Amount(x), Amount(lo), Amount(hi)]);
    RangeOfAmounts(lib, x, lo, hi);
  }

  lemma AbsStep(lib: Lib, sc: Scope, t: Tree, x: real)
    requires t.Call? && lib.functions(t.name) == Some(Abs) && AreAmounts(lib, sc, t.args, [x])
    ensures IsAmount(lib, sc, t, if x < 0.0 then -x else x)
  {
    CallOf(lib, sc, t.name, Abs, t.args, [Amount(x)]);
  }

  lemma RoundStep(lib: Lib, sc: Scope, t: Tree, xs: seq<real>)
    requires t.Call? && lib.functions(t.name) == Some(Round) && AreAmounts(lib, sc, t.args, xs) && 1 <= |xs| <= 2
    ensures IsAmount(lib, sc, t, lib.round(xs[0], if |xs| == 2 then xs[1] else 0.0))
  {
    CallOf(lib, sc, t.name, Round, t.args, FormulaLaws.AmountList(xs).items);
  }

  /** BETWEEN of amounts includes its bounds, up to half a cent. */
  lemma RangeOfTrees(lib: Lib, sc: Scope, t: Tree, l: Tree, r: Tree, x: real, lo: real, hi: real)
    requires SourceNames(lib) && IsAmount(lib, sc, t, x) && IsAmount(lib, sc, l, lo) && IsAmount(lib, sc, r, hi)
    ensures IsAnswer(lib, sc, Call("BETWEEN", [t, l, r]), InBounds(x, lo, hi))
  {
    var call := Call("BETWEEN", [t, l, r]);
    OtherNames(lib);
    RangeStep(lib, sc, call, x, lo, hi, InBounds(x, lo, hi));
  }

  lemma SizeOfTrees(lib: Lib, sc: Scope, t: Tree, x: real)
    requires SourceNames(lib) && IsAmount(lib, sc, t, x)
    ensures IsAmount(lib, sc, Call("ABS", [t]), if x < 0.0 then -x else x)
  {
    OtherNames(lib);
    AbsStep(lib, sc, Call("ABS", [t]), x);
  }

  /** Rounding is to whole numbers unless it is told. */
  lemma RoundingOfTrees(lib: Lib, sc: Scope, t: Tree, r: Tree, x: real, digits: real)
    requires SourceNames(lib) && IsAmount(lib, sc, t, x) && IsAmount(lib, sc, r, digits)
    ensures IsAmount(lib, sc, Call("ROUND", [t]), lib.round(x, 0.0))
    ensures IsAmount(lib, sc, Call("ROUND", [t, r]), lib.round(x, digits))
  {
    NamesFound(lib);
    RoundStep(lib, sc, Call("ROUND", [t]), [x]);
    RoundStep(lib, sc, Call("ROUND", [t, r]), [x, digits]);
  }

  lemma DateStep(lib: Lib, sc: Scope, t: Tree, d: int, x: real, u: string, unit: Unit)
    requires t.Call? && lib.functions(t.name) == Some(DateAdd) && |t.args| == 3 && lib.unit(u) == Some(unit)
    requires IsDay(lib, sc, t.args[0], d) && IsAmount(lib, sc, t.args[1], x)
    requires Eval(lib, sc, t.args[2]) == Some(Text(u))
    ensures IsDay(lib, sc, t, lib.later(d, if x >= 0.0 then x.Floor else -((-x).Floor), unit))
  {
    CallOf(lib, sc, t.name, DateAdd, t.args, [Eval(lib, sc, t.args[0]).value, Amount(x), Text(u)]);
  }

  lemma TodayStep(lib: Lib, sc: Scope, t: Tree)
    requires t.Call? && lib.functions(t.name) == Some(Today) && t.args == []
    ensures IsDay(lib, sc, t, lib.today)
  {
    CallOf(lib, sc, t.name, Today, t.args, []);
  }

  /** DATE_ADD moves a day by a whole number of units, a broken number being cut off towards
      zero; TODAY is the day of the check. */
  lemma DatesOfTrees(lib: Lib, sc: Scope, t: Tree, n: Tree, v: Tree, d: int, x: real, u: string, unit: Unit)
    requires SourceNames(lib) && IsDay(lib, sc, t, d) && IsAmount(lib, sc, n, x) && Eval(lib, sc, v) == Some(Text(u))
    requires lib.unit(u) == Some(unit)
    ensures IsDay(lib, sc, Call("DATE_ADD", [t, n, v]),
                  lib.later(d, if x >= 0.0 then x.Floor else -((-x).Floor), unit))
    ensures IsDay(lib, sc, Call("TODAY", []), lib.today)
  {
    OtherNames(lib);
    DateStep(lib, sc, Call("DATE_ADD", [t, n, v]), d, x, u, unit);
    TodayStep(lib, sc, Call("TODAY", []));
  }

  /** All have the same key. */
  predicate OneKind(lib: Lib, vs: seq<Value>) {
    forall i, j :: 0 <= i < |vs| && 0 <= j < |vs| ==> lib.key(vs[i]) == lib.key(vs[j])
  }

  lemma SameOfKnown(lib: Lib, vs: seq<Value>)
    requires |vs| >= 2 && forall k :: 0 <= k < |vs| ==> !vs[k].Blank?
    ensures Sameness(lib, vs) == Truth(OneKind(lib, vs))
  {
    FormulaGaps.KnownGiveNoReason(vs);
    OneKey(lib, vs);
  }

  lemma SameStep(lib: Lib, sc: Scope, t: Tree, vs: seq<Value>, alike: bool)
    requires t.Call? && lib.functions(t.name) == Some(Same) && AreSingle(lib, sc, t.args, vs)
    requires Sameness(lib, vs) == Truth(alike)
    ensures IsAnswer(lib, sc, t, alike)
  {
    CallOf(lib, sc, t.name, Same, t.args, vs);
    FlatOfScalars(vs);
  }

  /** SAME of two or more known values: whether all have one key. */
  lemma SameOfTrees(lib: Lib, sc: Scope, args: seq<Tree>, vs: seq<Value>)
    requires SourceNames(lib) && AreSingle(lib, sc, args, vs)
    requires |vs| >= 2 && forall k :: 0 <= k < |vs| ==> !vs[k].Blank?
    ensures IsAnswer(lib, sc, Call("SAME", args), OneKind(lib, vs))
  {
    NamesFound(lib);
    SameOfKnown(lib, vs);
    SameStep(lib, sc, Call("SAME", args), vs, OneKind(lib, vs));
  }

  predicate IsKnown(lib: Lib, sc: Scope, t: Tree, v: Value) {
    Eval(lib, sc, t) == Some(v) && !v.Blank? && !v.Many?
  }

  lemma MatchOfKnown(lib: Lib, v: Value, w: Value, mode: string)
    requires !v.Blank? && !v.Many? && !w.Blank? && !w.Many?
    ensures Matching(lib, Flat([v]), Flat([w]), mode) == Truth(lib.fits(v, w, mode))
  {
    var xs, ys := [v], [w];
    FlatOfScalars(xs);
    FlatOfScalars(ys);
    assert xs[1..] == [] && ys[1..] == [] && PairReasons(xs, ys) == RowReasons(v, ys) + [];
    assert RowReasons(v, ys) == (Given(v) + Given(w)) + [];
    assert Found(lib, xs, ys, mode) <==> Fit(lib, xs[0], ys[0], mode);
  }

  lemma MatchStep(lib: Lib, sc: Scope, t: Tree, fn: Fn, v: Value, w: Value, mode: string)
    requires t.Call? && lib.functions(t.name) == Some(fn) && 2 <= |t.args| <= 3
    requires IsKnown(lib, sc, t.args[0], v) && IsKnown(lib, sc, t.args[1], w)
    requires |t.args| == 3 ==> fn == Match && Eval(lib, sc, t.args[2]) == Some(Text(mode))
    requires |t.args| == 2 ==> (fn == Match && mode == NEAR) || (fn == Contains && mode == "chua")
    ensures IsAnswer(lib, sc, t, lib.fits(v, w, mode))
  {
    CallOf(lib, sc, t.name, fn, t.args, if |t.args| == 3 then [v, w, Text(mode)] else [v, w]);
    MatchOfKnown(lib, v, w, mode);
  }

  /** MATCH asks whether two values fit in the given mode, or nearly; CONTAINS, whether the
      second is part of the first. */
  lemma MatchOfTrees(lib: Lib, sc: Scope, l: Tree, r: Tree, v: Value, w: Value, m: Tree, mode: string)
    requires SourceNames(lib) && IsKnown(lib, sc, l, v) && IsKnown(lib, sc, r, w)
    requires Eval(lib, sc, m) == Some(Text(mode))
    ensures IsAnswer(lib, sc, Call("MATCH", [l, r]), lib.fits(v, w, "g\U{1EA7}n \U{0111}\U{00FA}ng"))
    ensures IsAnswer(lib, sc, Call("MATCH", [l, r, m]), lib.fits(v, w, mode))
    ensures IsAnswer(lib, sc, Call("CONTAINS", [l, r]), lib.fits(v, w, "chua"))
  {
    NamesFound(lib);
    MatchStep(lib, sc, Call("MATCH", [l, r]), Match, v, w, NEAR);
    MatchStep(lib, sc, Call("MATCH", [l, r, m]), Match, v, w, mode);
    MatchStep(lib, sc, Call("CONTAINS", [l, r]), Contains, v, w, "chua");
  }

  lemma ExistsStep(lib: Lib, sc: Scope, t: Tree, v: Value)
    requires t.Call? && lib.functions(t.name) == Some(Exists) && AreSingle(lib, sc, t.args, [v])
    ensures IsAnswer(lib, sc, t, !v.Blank?)
  {
    CallOf(lib, sc, t.name, Exists, t.args, [v]);
    FlatOfScalars([v]);
    KnownSnoc([], v);
    Nothing([v]);
  }

  /** EXISTS is yes for a value and no for a gap. */
  lemma ExistsOfTrees(lib: Lib, sc: Scope, t: Tree, v: Value)
    requires SourceNames(lib) && Eval(lib, sc, t) == Some(v) && !v.Many?
    ensures IsAnswer(lib, sc, Call("EXISTS", [t]), !v.Blank?)
  {
    NamesFound(lib);
    ExistsStep(lib, sc, Call("EXISTS", [t]), v);
  }
}
