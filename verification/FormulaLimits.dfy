/**
 What the formulas do not promise: formulas outside the fragment whose outcome changes
 when an empty field is filled in, and an ill-typed comparison that passes.
 */
module FormulaLimits {
  import opened Util
  import opened Sequences
  import opened FormulaSyntax
  import opened FormulaValues
  import opened FormulaEval
  import opened FormulaKnowledge
  import opened FormulaSearch

  // ------------------------------------------------------------------------- calls

  lemma {:induction false} ArgumentsAre(lib: Lib, sc: Scope, args: seq<Tree>, vs: seq<Value>)
    requires |vs| == |args| && forall k :: 0 <= k < |args| ==> Eval(lib, sc, args[k]) == Some(vs[k])
    ensures EvalAll(lib, sc, args) == Some(vs)
  {
    if args != [] {
      ArgumentsAre(lib, sc, args[1..], vs[1..]);
      assert [vs[0]] + vs[1..] == vs;
    }
  }

  lemma CallOf(lib: Lib, sc: Scope, name: string, fn: Fn, args: seq<Tree>, vs: seq<Value>)
    requires lib.functions(name) == Some(fn)
    requires |vs| == |args| && forall k :: 0 <= k < |args| ==> Eval(lib, sc, args[k]) == Some(vs[k])
    ensures Eval(lib, sc, Call(name, args)) == Applied(lib, fn, vs)
  {
    ArgumentsAre(lib, sc, args, vs);
  }

  lemma {:induction false} EachChecked(lib: Lib, sc: Scope, args: seq<Tree>)
    requires forall k :: 0 <= k < |args| ==> Checked(lib, sc, args[k])
    ensures AllChecked(lib, sc, args)
  {
    if args != [] {
      EachChecked(lib, sc, args[1..]);
    }
  }

  lemma CheckedCall(lib: Lib, sc: Scope, name: string, args: seq<Tree>)
    requires lib.functions(name).Some? && ArityOk(lib.functions(name).value, |args|)
    requires forall k :: 0 <= k < |args| ==> Checked(lib, sc, args[k])
    ensures Checked(lib, sc, Call(name, args))
  {
    EachChecked(lib, sc, args);
  }

  /** The functions have the names the source gives them. */
  ghost predicate SourceNames(lib: Lib) {
    forall name :: lib.functions(name) == SourceFunctions(name)
  }

  lemma NamesFound(lib: Lib)
    requires SourceNames(lib)
    ensures lib.functions("COUNT") == Some(Count) && lib.functions("EXISTS") == Some(Exists)
    ensures lib.functions("SAME") == Some(Same) && lib.functions("ROUND") == Some(Round)
    ensures lib.functions("MATCH") == Some(Match) && lib.functions("CONTAINS") == Some(Contains)
    ensures lib.functions("SUM") == Some(Aggregate(SumOf)) && lib.functions("IF") == Some(If)
  {
  }

  /** t = 0 */
  function IsZero(t: Tree): Tree {
    Bin(Eq, t, Num(0.0))
  }

  /** The outcome is open, and says what is missing. */
  predicate AsksForData(lib: Lib, sc: Scope, t: Tree) {
    Outcome(lib, sc, t).Some? && Asks(Outcome(lib, sc, t).value)
  }

  lemma ZeroOutcome(lib: Lib, sc: Scope, t: Tree)
    requires Eval(lib, sc, t).Some?
    ensures var v := Eval(lib, sc, t).value;
            && (v.Amount? ==> Outcome(lib, sc, IsZero(t)) == Some(if Sign(v.n) == 0 then Pass else Fail))
            && (v.Blank? && v.reasons != [] ==> AsksForData(lib, sc, IsZero(t)))
  {
    var v := Eval(lib, sc, t).value;
    Nothing(Given(v));
    assert Eval(lib, sc, IsZero(t)) == Some(Binary(lib, Eq, v, Amount(0.0)));
  }

  // -------------------------------------------- checks decided by a missing field

  /** Some empty fields are filled in; the field of this one document is among them. */
  ghost predicate Gains(lib: Lib, sc: Scope, sc': Scope, a: string, x: string) {
    && Fills(lib, sc, sc') && IsKnownField(sc, a, x) && a in sc.single
    && FieldText(sc.single[a], x) == "" != FieldText(sc'.single[a], x)
  }

  /** A checked formula is decided in a scope, and decided the other way once the scope is
      filled in. */
  predicate Turns(lib: Lib, sc: Scope, sc': Scope, t: Tree, before: Verdict, after: Verdict) {
    Checked(lib, sc, t) && Outcome(lib, sc, t) == Some(before) && Outcome(lib, sc', t) == Some(after)
  }

  /** A known field whose value is missing in one scope, for one reason, and not in the other. */
  predicate Appears(lib: Lib, sc: Scope, sc': Scope, a: string, x: string) {
    var v, w := MemberValue(lib, sc, a, x), MemberValue(lib, sc', a, x);
    IsKnownField(sc, a, x) && IsKnownField(sc', a, x) && v.Blank? && |v.reasons| == 1 && !w.Blank? && !w.Many?
  }

  lemma GainedValue(lib: Lib, sc: Scope, sc': Scope, a: string, x: string)
    requires Gains(lib, sc, sc', a, x)
    ensures Appears(lib, sc, sc', a, x)
  {
    assert DocFills(lib, sc, a, sc.single[a], sc'.single[a]);
    assert FieldFills(lib, KindOf(sc, a, x), sc.single[a], sc'.single[a], x);
    assert KindOf(sc', a, x) == KindOf(sc, a, x);
  }

  /** The values of arguments that are numbers or this one field. */
  function With(args: seq<Tree>, v: Value): seq<Value> {
    seq(|args|, k requires 0 <= k < |args| => if args[k].Num? then Amount(args[k].x) else v)
  }

  /** Numbers and one known field. */
  predicate Plain(sc: Scope, a: string, x: string, args: seq<Tree>) {
    IsKnownField(sc, a, x) && forall k :: 0 <= k < |args| ==> args[k].Num? || args[k] == Member(a, x)
  }

  lemma CallOnField(lib: Lib, sc: Scope, a: string, x: string, t: Tree, fn: Fn)
    requires t.Call? && lib.functions(t.name) == Some(fn) && ArityOk(fn, |t.args|) && Plain(sc, a, x, t.args)
    ensures Checked(lib, sc, t) && Eval(lib, sc, t) == Applied(lib, fn, With(t.args, MemberValue(lib, sc, a, x)))
  {
    CallOf(lib, sc, t.name, fn, t.args, With(t.args, MemberValue(lib, sc, a, x)));
    CheckedCall(lib, sc, t.name, t.args);
  }

  lemma OneApplied(lib: Lib, args: seq<Tree>, v: Value)
    requires !v.Many? && |args| == 1 && !args[0].Num?
    ensures Applied(lib, Count, With(args, v)) == Some(Amount(if v.Blank? then 0.0 else 1.0))
    ensures Applied(lib, Exists, With(args, v)) == Some(Truth(!v.Blank?))
  {
    assert With(args, v) == [v] && [v][1..] == [];
    FlatOfScalars([v]);
    assert Known([v]) == if v.Blank? then 0 else 1;
  }

  lemma CountOfField(lib: Lib, sc: Scope, a: string, x: string, t: Tree)
    requires t.Call? && lib.functions(t.name) == Some(Count) && t.args == [Member(a, x)]
    requires IsKnownField(sc, a, x) && !MemberValue(lib, sc, a, x).Many?
    ensures Checked(lib, sc, t)
    ensures Eval(lib, sc, t) == Some(Amount(if MemberValue(lib, sc, a, x).Blank? then 0.0 else 1.0))
  {
    CallOnField(lib, sc, a, x, t, Count);
    OneApplied(lib, t.args, MemberValue(lib, sc, a, x));
  }

  lemma CountTurns(lib: Lib, sc: Scope, sc': Scope, a: string, x: string, t: Tree)
    requires Appears(lib, sc, sc', a, x)
    requires t.Call? && lib.functions(t.name) == Some(Count) && t.args == [Member(a, x)]
    ensures Turns(lib, sc, sc', IsZero(t), Pass, Fail)
  {
    CountOfField(lib, sc, a, x, t);
    CountOfField(lib, sc', a, x, t);
    ZeroOutcome(lib, sc, t);
    ZeroOutcome(lib, sc', t);
  }

  /** Counting tells a gap from a value: COUNT(a.x) = 0 passes until the field is filled in. */
  lemma CountingIsNotMonotone(lib: Lib, sc: Scope, sc': Scope, a: string, x: string)
    requires SourceNames(lib) && Gains(lib, sc, sc', a, x)
    ensures Turns(lib, sc, sc', IsZero(Call("COUNT", [Member(a, x)])), Pass, Fail)
  {
    var t := Call("COUNT", [Member(a, x)]);
    NamesFound(lib);
    GainedValue(lib, sc, sc', a, x);
    CountTurns(lib, sc, sc', a, x, t);
  }

  lemma ExistsOnField(lib: Lib, sc: Scope, a: string, x: string, t: Tree)
    requires t.Call? && lib.functions(t.name) == Some(Exists) && t.args == [Member(a, x)]
    requires IsKnownField(sc, a, x) && !MemberValue(lib, sc, a, x).Many?
    ensures Checked(lib, sc, t)
    ensures Eval(lib, sc, t) == Some(Truth(!MemberValue(lib, sc, a, x).Blank?))
  {
    CallOnField(lib, sc, a, x, t, Exists);
    OneApplied(lib, t.args, MemberValue(lib, sc, a, x));
  }

  lemma ExistsTurns(lib: Lib, sc: Scope, sc': Scope, a: string, x: string, t: Tree)
    requires Appears(lib, sc, sc', a, x)
    requires t.Call? && lib.functions(t.name) == Some(Exists) && t.args == [Member(a, x)]
    ensures Turns(lib, sc, sc', t, Fail, Pass)
  {
    ExistsOnField(lib, sc, a, x, t);
    ExistsOnField(lib, sc', a, x, t);
  }

  /** EXISTS(a.x) fails until the field is filled in. */
  lemma ExistingIsNotMonotone(lib: Lib, sc: Scope, sc': Scope, a: string, x: string)
    requires SourceNames(lib) && Gains(lib, sc, sc', a, x)
    ensures Turns(lib, sc, sc', Call("EXISTS", [Member(a, x)]), Fail, Pass)
  {
    var t := Call("EXISTS", [Member(a, x)]);
    NamesFound(lib);
    GainedValue(lib, sc, sc', a, x);
    ExistsTurns(lib, sc, sc', a, x, t);
  }

  lemma SameApplied(lib: Lib, args: seq<Tree>, n: real, v: Value)
    requires !v.Many? && (v.Blank? ==> |v.reasons| == 1)
    requires |args| == 3 && args[0] == args[1] == Num(n) && !args[2].Num?
    ensures Applied(lib, Same, With(args, v)) == Some(Truth(v.Blank? || lib.key(v) == lib.key(Amount(n))))
  {
    var xs := [Amount(n), Amount(n), v];
    assert With(args, v) == xs;
    FlatOfScalars(xs);
    assert xs[1..] == [Amount(n), v] && xs[1..][1..] == [v] && [v][1..] == [];
    assert GivenIn([v]) == Given(v) + [] && GivenIn(xs[1..]) == [] + GivenIn([v]);
    assert Known([v]) == (if v.Blank? then 0 else 1) && Known(xs[1..]) == 1 + Known([v]);
    OneKey(lib, xs);
    assert xs[0] == Amount(n) && xs[2] == v;
  }

  lemma SameOnField(lib: Lib, sc: Scope, a: string, x: string, t: Tree, n: real, v: Value)
    requires t.Call? && lib.functions(t.name) == Some(Same) && t.args == [Num(n), Num(n), Member(a, x)]
    requires IsKnownField(sc, a, x) && MemberValue(lib, sc, a, x) == v && !v.Many? && (v.Blank? ==> |v.reasons| == 1)
    ensures Checked(lib, sc, t)
    ensures Eval(lib, sc, t) == Some(Truth(v.Blank? || lib.key(v) == lib.key(Amount(n))))
  {
    CallOnField(lib, sc, a, x, t, Same);
    SameApplied(lib, t.args, n, v);
  }

  lemma SameTurns(lib: Lib, sc: Scope, sc': Scope, a: string, x: string, t: Tree, n: real)
    requires Appears(lib, sc, sc', a, x)
    requires lib.key(MemberValue(lib, sc', a, x)) != lib.key(Amount(n))
    requires t.Call? && lib.functions(t.name) == Some(Same) && t.args == [Num(n), Num(n), Member(a, x)]
    ensures Turns(lib, sc, sc', t, Pass, Fail)
  {
    SameOnField(lib, sc, a, x, t, n, MemberValue(lib, sc, a, x));
    SameOnField(lib, sc', a, x, t, n, MemberValue(lib, sc', a, x));
  }

  /** SAME(n, n, a.x) passes until the field is filled in with something else than n. */
  lemma SamenessIsNotMonotone(lib: Lib, sc: Scope, sc': Scope, a: string, x: string, n: real)
    requires SourceNames(lib) && Gains(lib, sc, sc', a, x)
    requires lib.key(MemberValue(lib, sc', a, x)) != lib.key(Amount(n))
    ensures Turns(lib, sc, sc', Call("SAME", [Num(n), Num(n), Member(a, x)]), Pass, Fail)
  {
    var t := Call("SAME", [Num(n), Num(n), Member(a, x)]);
    NamesFound(lib);
    GainedValue(lib, sc, sc', a, x);
    SameTurns(lib, sc, sc', a, x, t, n);
  }

  /** How MATCH and CONTAINS compare. */
  function ModeOf(fn: Fn): string {
    if fn == Match then NEAR else PART
  }

  lemma MatchApplied(lib: Lib, args: seq<Tree>, fn: Fn, v: Value)
    requires !v.Many? && if v.Blank? then |v.reasons| == 1 else lib.fits(v, v, ModeOf(fn))
    requires |args| == 2 && !args[0].Num? && !args[1].Num? && (fn == Match || fn == Contains)
    ensures Applied(lib, fn, With(args, v)) == Some(Truth(!v.Blank?))
  {
    assert With(args, v) == [v, v];
    MatchingOfOne(lib, v, ModeOf(fn));
  }

  lemma MatchingOfOne(lib: Lib, v: Value, mode: string)
    requires !v.Many? && if v.Blank? then |v.reasons| == 1 else lib.fits(v, v, mode)
    ensures Matching(lib, Flat([v]), Flat([v]), mode) == Truth(!v.Blank?)
  {
    var xs := [v];
    FlatOfScalars(xs);
    assert xs[1..] == [] && xs[0] == v;
    if v.Blank? {
      assert RowReasons(v, xs) == (Given(v) + Given(v)) + RowReasons(v, xs[1..]);
      assert PairReasons(xs, xs) == RowReasons(v, xs) + PairReasons(xs[1..], xs);
    } else {
      assert Fit(lib, xs[0], xs[0], mode);
    }
  }

  lemma MatchOnField(lib: Lib, sc: Scope, a: string, x: string, t: Tree, fn: Fn, v: Value)
    requires t.Call? && lib.functions(t.name) == Some(fn) && t.args == [Member(a, x), Member(a, x)]
    requires IsKnownField(sc, a, x) && MemberValue(lib, sc, a, x) == v && (fn == Match || fn == Contains)
    requires !v.Many? && if v.Blank? then |v.reasons| == 1 else lib.fits(v, v, ModeOf(fn))
    ensures Checked(lib, sc, t) && Eval(lib, sc, t) == Some(Truth(!v.Blank?))
  {
    CallOnField(lib, sc, a, x, t, fn);
    MatchApplied(lib, t.args, fn, v);
  }

  lemma MatchTurns(lib: Lib, sc: Scope, sc': Scope, a: string, x: string, t: Tree, fn: Fn)
    requires Appears(lib, sc, sc', a, x)
    requires fn == Match || fn == Contains
    requires lib.fits(MemberValue(lib, sc', a, x), MemberValue(lib, sc', a, x), ModeOf(fn))
    requires t.Call? && lib.functions(t.name) == Some(fn) && t.args == [Member(a, x), Member(a, x)]
    ensures Turns(lib, sc, sc', t, Fail, Pass)
  {
    MatchOnField(lib, sc, a, x, t, fn, MemberValue(lib, sc, a, x));
    MatchOnField(lib, sc', a, x, t, fn, MemberValue(lib, sc', a, x));
  }

  /** MATCH(a.x, a.x) fails until the field is filled in: the one pair gives two reasons. */
  lemma MatchingIsNotMonotone(lib: Lib, sc: Scope, sc': Scope, a: string, x: string)
    requires SourceNames(lib) && Gains(lib, sc, sc', a, x)
    requires lib.fits(MemberValue(lib, sc', a, x), MemberValue(lib, sc', a, x), NEAR)
    ensures Turns(lib, sc, sc', Call("MATCH", [Member(a, x), Member(a, x)]), Fail, Pass)
  {
    var t := Call("MATCH", [Member(a, x), Member(a, x)]);
    NamesFound(lib);
    GainedValue(lib, sc, sc', a, x);
    MatchTurns(lib, sc, sc', a, x, t, Match);
  }

  /** So does CONTAINS(a.x, a.x). */
  lemma ContainingIsNotMonotone(lib: Lib, sc: Scope, sc': Scope, a: string, x: string)
    requires SourceNames(lib) && Gains(lib, sc, sc', a, x)
    requires lib.fits(MemberValue(lib, sc', a, x), MemberValue(lib, sc', a, x), PART)
    ensures Turns(lib, sc, sc', Call("CONTAINS", [Member(a, x), Member(a, x)]), Fail, Pass)
  {
    var t := Call("CONTAINS", [Member(a, x), Member(a, x)]);
    NamesFound(lib);
    GainedValue(lib, sc, sc', a, x);
    MatchTurns(lib, sc, sc', a, x, t, Contains);
  }

  lemma RoundOnField(lib: Lib, sc: Scope, a: string, x: string, t: Tree, n: real, v: Value)
    requires t.Call? && lib.functions(t.name) == Some(Round) && t.args == [Num(n), Member(a, x)]
    requires IsKnownField(sc, a, x) && MemberValue(lib, sc, a, x) == v
    ensures Checked(lib, sc, t)
    ensures Eval(lib, sc, t) == Some(Amount(lib.round(n, if v.Amount? then v.n else 0.0)))
  {
    CallOnField(lib, sc, a, x, t, Round);
    assert With(t.args, v) == [Amount(n), v];
  }

  lemma RoundTurns(lib: Lib, sc: Scope, sc': Scope, a: string, x: string, t: Tree, n: real)
    requires Appears(lib, sc, sc', a, x) && MemberValue(lib, sc', a, x).Amount?
    requires Sign(lib.round(n, 0.0)) == 0 != Sign(lib.round(n, MemberValue(lib, sc', a, x).n))
    requires t.Call? && lib.functions(t.name) == Some(Round) && t.args == [Num(n), Member(a, x)]
    ensures Turns(lib, sc, sc', IsZero(t), Pass, Fail)
  {
    RoundOnField(lib, sc, a, x, t, n, MemberValue(lib, sc, a, x));
    RoundOnField(lib, sc', a, x, t, n, MemberValue(lib, sc', a, x));
    ZeroOutcome(lib, sc, t);
    ZeroOutcome(lib, sc', t);
  }

  /** ROUND(n, a.x) = 0 passes, for a share n that rounds to nothing, while the number of
      digits is missing: a missing number of digits counts as none. */
  lemma RoundingIsNotMonotone(lib: Lib, sc: Scope, sc': Scope, a: string, x: string, n: real)
    requires SourceNames(lib) && Gains(lib, sc, sc', a, x) && MemberValue(lib, sc', a, x).Amount?
    requires Sign(lib.round(n, 0.0)) == 0 != Sign(lib.round(n, MemberValue(lib, sc', a, x).n))
    ensures Turns(lib, sc, sc', IsZero(Call("ROUND", [Num(n), Member(a, x)])), Pass, Fail)
  {
    var t := Call("ROUND", [Num(n), Member(a, x)]);
    NamesFound(lib);
    GainedValue(lib, sc, sc', a, x);
    RoundTurns(lib, sc, sc', a, x, t, n);
  }

  // ---------------------------------------------------------------- IF between lists

  /** A field of all documents of a type, which are `n` documents. */
  predicate Lists(sc: Scope, name: string, field: string, n: nat) {
    name !in sc.single && name !in sc.singleType && |GroupOf(sc, name)| == n && IsKnownField(sc, name, field)
  }

  /** An empty list, whatever is added to it, sums up to nothing. */
  lemma EmptySum(lib: Lib)
    ensures Aggregated(lib, SumOf, [Many([])]) == Amount(0.0)
    ensures Aggregated(lib, SumOf, [Blank([LengthsDiffer])]) == Blank([LengthsDiffer])
  {
    var e, b := [Many([])], [Blank([LengthsDiffer])];
    assert e[1..] == [] && b[1..] == [];
    assert Flat(e) == Flat([]) + Flat([]) == [];
    assert Flat(b) == b + Flat([]) == b;
    assert Complaints(lib, SumOf, b) == [LengthsDiffer] + Complaints(lib, SumOf, []);
  }

  lemma AddedToEmpty(lib: Lib, choice: Value)
    requires choice.Many? ==> |choice.items| > 0
    ensures Binary(lib, Add, Many([]), choice) == if choice.Many? then Blank([LengthsDiffer]) else Many([])
  {
  }

  lemma SumOfOne(lib: Lib, sc: Scope, sum: Tree, v: Value)
    requires sum.Call? && lib.functions(sum.name) == Some(Aggregate(SumOf)) && |sum.args| == 1
    requires Eval(lib, sc, sum.args[0]) == Some(v)
    ensures Eval(lib, sc, sum) == Some(Aggregated(lib, SumOf, [v]))
  {
    CallOf(lib, sc, sum.name, Aggregate(SumOf), sum.args, [v]);
  }

  /** The sum of a choice and an empty list. */
  lemma ChoiceOutcome(lib: Lib, sc: Scope, e: string, y: string, t: Tree, sum: Tree, choice: Value)
    requires sum.Call? && lib.functions(sum.name) == Some(Aggregate(SumOf)) && sum.args == [Bin(Add, Member(e, y), t)]
    requires Eval(lib, sc, t) == Some(choice) && MemberValue(lib, sc, e, y) == Many([])
    requires choice.Many? ==> |choice.items| > 0
    ensures if choice.Many? then AsksForData(lib, sc, IsZero(sum)) else Outcome(lib, sc, IsZero(sum)) == Some(Pass)
  {
    AddedToEmpty(lib, choice);
    EmptySum(lib);
    SumOfOne(lib, sc, sum, Binary(lib, Add, Many([]), choice));
    ZeroOutcome(lib, sc, sum);
  }

  lemma ChoiceValue(lib: Lib, sc: Scope, a: string, x: string, l: string, z: string, t: Tree)
    requires t.Call? && lib.functions(t.name) == Some(If) && t.args == [Member(a, x), Member(l, z)]
    ensures Eval(lib, sc, t) == Chosen([MemberValue(lib, sc, a, x), MemberValue(lib, sc, l, z)])
  {
    CallOf(lib, sc, t.name, If, t.args, [MemberValue(lib, sc, a, x), MemberValue(lib, sc, l, z)]);
  }

  /** The sum passes while the condition is missing, and is undecided once it is met. */
  lemma ChoiceTurns(lib: Lib, sc: Scope, e: string, y: string, a: string, x: string, l: string, z: string, n: nat,
                    t: Tree, sum: Tree)
    requires t.Call? && lib.functions(t.name) == Some(If) && t.args == [Member(a, x), Member(l, z)]
    requires sum.Call? && lib.functions(sum.name) == Some(Aggregate(SumOf)) && sum.args == [Bin(Add, Member(e, y), t)]
    requires Lists(sc, e, y, 0) && Lists(sc, l, z, n) && n > 0
    ensures MemberValue(lib, sc, a, x).Blank? ==> Outcome(lib, sc, IsZero(sum)) == Some(Pass)
    ensures MemberValue(lib, sc, a, x) == Truth(true) ==> AsksForData(lib, sc, IsZero(sum))
  {
    var v := MemberValue(lib, sc, a, x);
    ChoiceValue(lib, sc, a, x, l, z, t);
    if v.Blank? {
      ChoiceOutcome(lib, sc, e, y, t, sum, Blank(Distinct(v.reasons)));
    } else if v == Truth(true) {
      ChoiceOutcome(lib, sc, e, y, t, sum, MemberValue(lib, sc, l, z));
    }
  }

  lemma ChoiceChecked(lib: Lib, sc: Scope, e: string, y: string, a: string, x: string, l: string, z: string,
                      t: Tree, sum: Tree)
    requires t.Call? && lib.functions(t.name) == Some(If) && t.args == [Member(a, x), Member(l, z)]
    requires sum.Call? && lib.functions(sum.name) == Some(Aggregate(SumOf)) && sum.args == [Bin(Add, Member(e, y), t)]
    requires IsKnownField(sc, e, y) && IsKnownField(sc, a, x) && IsKnownField(sc, l, z)
    ensures Checked(lib, sc, IsZero(sum))
  {
    CheckedCall(lib, sc, t.name, t.args);
    CheckedCall(lib, sc, sum.name, sum.args);
  }

  lemma ListsStay(lib: Lib, sc: Scope, sc': Scope, name: string, field: string, n: nat)
    requires Fills(lib, sc, sc') && Lists(sc, name, field, n)
    ensures Lists(sc', name, field, n)
  {
  }

  /** A choice between lists has no shape until its condition is known: for a group `e` that
      is empty and a group `l` that is not, SUM(e.y + IF(a.x, l.z)) = 0 passes, and is no
      longer decided once the condition a.x is filled in with yes. */
  lemma ChoosingListsIsNotMonotone(lib: Lib, sc: Scope, sc': Scope, a: string, x: string,
                                   e: string, y: string, l: string, z: string, n: nat)
    requires SourceNames(lib) && Gains(lib, sc, sc', a, x) && MemberValue(lib, sc', a, x) == Truth(true)
    requires Lists(sc, e, y, 0) && Lists(sc, l, z, n) && n > 0
    ensures var t := IsZero(Call("SUM", [Bin(Add, Member(e, y), Call("IF", [Member(a, x), Member(l, z)]))]));
            Checked(lib, sc, t) && Outcome(lib, sc, t) == Some(Pass) && AsksForData(lib, sc', t)
  {
    var t := Call("IF", [Member(a, x), Member(l, z)]);
    NamesFound(lib);
    GainedValue(lib, sc, sc', a, x);
    ListsStay(lib, sc, sc', e, y, 0);
    ListsStay(lib, sc, sc', l, z, n);
    var sum := Call("SUM", [Bin(Add, Member(e, y), t)]);
    ChoiceChecked(lib, sc, e, y, a, x, l, z, t, sum);
    ChoiceTurns(lib, sc, e, y, a, x, l, z, n, t, sum);
    ChoiceTurns(lib, sc', e, y, a, x, l, z, n, t, sum);
  }

  // -------------------------------------------------------- comparisons with nothing

  lemma IllTypedGivesNoReason(lib: Lib, sc: Scope)
    ensures Eval(lib, sc, Bin(AndOp, Num(1.0), Num(2.0))) == Some(Blank([]))
  {
    var l, r := Num(1.0), Num(2.0);
    assert Eval(lib, sc, l) == Some(Amount(1.0)) && Eval(lib, sc, r) == Some(Amount(2.0));
    Nothing<Reason>([]);
    assert Logic(true, Amount(1.0), Amount(2.0)) == Blank([]);
    assert Binary(lib, AndOp, Amount(1.0), Amount(2.0)) == Logic(true, Amount(1.0), Amount(2.0));
  }

  /** name.field > (1 AND 2) */
  function IllTyped(name: string, field: string): Tree {
    Bin(Gt, Member(name, field), Bin(AndOp, Num(1.0), Num(2.0)))
  }

  /** A comparison with something that is no value passes, on every group of documents whose
      field is known: the comparison is unknown without saying why, and such items do not
      keep a list from passing. The check of the formula accepts it. */
  lemma IllTypedComparisonPasses(lib: Lib, sc: Scope, name: string, field: string)
    requires IsKnownField(sc, name, field) && name !in sc.single && name !in sc.singleType
    requires GroupOf(sc, name) != []
    requires forall k :: 0 <= k < |GroupOf(sc, name)| ==>
               !FieldOf(lib, name, KindOf(sc, name, field), GroupOf(sc, name)[k], field).Blank?
    ensures Checked(lib, sc, IllTyped(name, field))
    ensures Outcome(lib, sc, IllTyped(name, field)) == Some(Pass)
  {
    var l := MemberValue(lib, sc, name, field);
    IllTypedGivesNoReason(lib, sc);
    forall k | 0 <= k < |l.items| ensures !l.items[k].Many? && !l.items[k].Blank? {
      assert l.items[k] == FieldOf(lib, name, KindOf(sc, name, field), GroupOf(sc, name)[k], field);
    }
    ComparedWithNothing(lib, Gt, l);
    assert Eval(lib, sc, IllTyped(name, field)) == Some(Binary(lib, Gt, l, Blank([])));
    ListPasses(Binary(lib, Gt, l, Blank([])).items);
  }

  lemma ComparedWithNothing(lib: Lib, op: BinOp, l: Value)
    requires LevelOf(op) == CMP_LEVEL
    requires l.Many? && forall k :: 0 <= k < |l.items| ==> !l.items[k].Many? && !l.items[k].Blank?
    ensures var v := Binary(lib, op, l, Blank([]));
            v.Many? && |v.items| == |l.items| && forall k :: 0 <= k < |v.items| ==> v.items[k] == Blank([])
  {
    KnownAgainstNothing(l, (a, b) => Compared(lib, op, a, b));
  }

  lemma KnownAgainstNothing(l: Value, f: (Value, Value) -> Value)
    requires l.Many? && forall k :: 0 <= k < |l.items| ==> !l.items[k].Many? && !l.items[k].Blank?
    ensures var v := Broadcast(l, Blank([]), f);
            v.Many? && |v.items| == |l.items| && forall k :: 0 <= k < |v.items| ==> v.items[k] == Blank([])
  {
    var v := Broadcast(l, Blank([]), f);
    forall k | 0 <= k < |v.items| ensures v.items[k] == Blank([]) {
      assert v.items[k] == Broadcast(l.items[k], Blank([]), f);
    }
  }
}
