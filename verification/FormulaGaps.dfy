/**
 Missing values at the level of formulas: where a value may be unknown without saying why,
 and what SAME and MATCH make of missing fields.
 */
module FormulaGaps {
  import opened Util
  import opened Sequences
  import opened FormulaSyntax
  import opened FormulaValues
  import opened FormulaEval
  import opened FormulaSearch
  import opened FormulaLimits
  import FormulaKnowledge

  // -------------------------------------------------------- every gap gives its reasons

  /** Whatever is missing in a value says why. */
  predicate Explained(v: Value) {
    match v
    case Blank(reasons) => reasons != []
    case Many(items) => forall k :: 0 <= k < |items| ==> Explained(items[k])
    case _ => true
  }

  predicate AllExplained(vs: seq<Value>) {
    forall k :: 0 <= k < |vs| ==> Explained(vs[k])
  }

  /** The value can be judged: it is a yes or a no, or not known yet. */
  predicate Judged(v: Value) {
    VerdictOf(v) != Wrong
  }

  predicate JudgedHere(lib: Lib, sc: Scope, t: Tree) {
    var v := Eval(lib, sc, t);
    v.Some? && Judged(v.value)
  }

  /** Nothing but yes, no and unknown stands as a condition or beside AND and OR. */
  predicate WellTyped(lib: Lib, sc: Scope, t: Tree)
    decreases t
  {
    match t
    case Neg(x) => WellTyped(lib, sc, x)
    case Not(x) => WellTyped(lib, sc, x)
    case Bin(op, l, r) =>
      && WellTyped(lib, sc, l) && WellTyped(lib, sc, r)
      && (LevelOf(op) < CMP_LEVEL ==> JudgedHere(lib, sc, l) && JudgedHere(lib, sc, r))
    case Call(name, args) =>
      && (forall k :: 0 <= k < |args| ==> WellTyped(lib, sc, args[k]))
      && (lib.functions(name) == Some(If) && args != [] ==> JudgedHere(lib, sc, args[0]))
      && (lib.functions(name) == Some(AndAll) || lib.functions(name) == Some(OrAll) ==>
            forall k :: 0 <= k < |args| ==> JudgedHere(lib, sc, args[k]))
    case _ => true
  }

  /** A verdict on an explained value asks for data whenever it is open. */
  lemma OpenAsks(v: Value)
    requires Explained(v)
    ensures VerdictOf(v).Unclear? ==> Asks(VerdictOf(v))
  {
  }

  lemma {:induction false} BroadcastExplained(l: Value, r: Value, f: (Value, Value) -> Value)
    requires Explained(l) && Explained(r)
    requires forall a, b :: Explained(f(a, b))
    ensures Explained(Broadcast(l, r, f))
    decreases l, r
  {
    var v := Broadcast(l, r, f);
    if l.Many? && r.Many? {
      if |l.items| == |r.items| {
        forall k | 0 <= k < |l.items| ensures Explained(v.items[k]) {
          BroadcastExplained(l.items[k], r.items[k], f);
        }
      }
    } else if l.Many? {
      forall k | 0 <= k < |l.items| ensures Explained(v.items[k]) {
        BroadcastExplained(l.items[k], r, f);
      }
    } else if r.Many? {
      forall k | 0 <= k < |r.items| ensures Explained(v.items[k]) {
        BroadcastExplained(l, r.items[k], f);
      }
    }
  }

  lemma LogicExplained(conj: bool, l: Value, r: Value)
    requires Explained(l) && Explained(r) && Judged(l) && Judged(r)
    ensures var v := Logic(conj, l, r); Explained(v) && Judged(v)
  {
    OpenAsks(l);
    OpenAsks(r);
  }

  lemma {:induction false} FoldExplained(conj: bool, v: Value, rest: seq<Value>)
    requires Explained(v) && (rest != [] ==> Judged(v))
    requires forall k :: 0 <= k < |rest| ==> Explained(rest[k]) && Judged(rest[k])
    ensures Explained(FoldLogic(conj, v, rest))
    decreases |rest|
  {
    if rest != [] {
      LogicExplained(conj, v, rest[0]);
      FoldExplained(conj, Logic(conj, v, rest[0]), rest[1..]);
    }
  }

  lemma {:induction false} NegatedExplained(v: Value)
    requires Explained(v)
    ensures Explained(Negated(v))
  {
    if v.Many? {
      forall k | 0 <= k < |v.items| ensures Explained(Negated(v).items[k]) {
        NegatedExplained(v.items[k]);
      }
    }
  }

  lemma BinaryExplained(lib: Lib, op: BinOp, l: Value, r: Value)
    requires Explained(l) && Explained(r) && (LevelOf(op) < CMP_LEVEL ==> Judged(l) && Judged(r))
    ensures Explained(Binary(lib, op, l, r))
  {
    match op
    case OrOp => LogicExplained(false, l, r);
    case AndOp => LogicExplained(true, l, r);
    case Add => BroadcastExplained(l, r, (a, b) => Computed(lib, Add, a, b));
    case Sub => BroadcastExplained(l, r, (a, b) => Computed(lib, Sub, a, b));
    case Mul => BroadcastExplained(l, r, (a, b) => Computed(lib, Mul, a, b));
    case Div => BroadcastExplained(l, r, (a, b) => Computed(lib, Div, a, b));
    case _ => BroadcastExplained(l, r, (a, b) => Compared(lib, op, a, b));
  }

  lemma {:induction false} RangeExplained(lib: Lib, x: Value, lo: Value, hi: Value)
    requires Explained(x) && Explained(lo) && Explained(hi)
    ensures Explained(AllInRange(lib, x, lo, hi))
    decreases x
  {
    if x.Many? {
      forall k | 0 <= k < |x.items| ensures Explained(AllInRange(lib, x, lo, hi).items[k]) {
        RangeExplained(lib, x.items[k], lo, hi);
      }
    }
  }

  lemma {:induction false} AddedExplained(lib: Lib, x: Value, n: Value, u: Value)
    requires Explained(x) && Explained(n)
    ensures Explained(AddedTo(lib, x, n, u))
    decreases x
  {
    if x.Many? {
      forall k | 0 <= k < |x.items| ensures Explained(AddedTo(lib, x, n, u).items[k]) {
        AddedExplained(lib, x.items[k], n, u);
      }
    }
  }

  lemma AppliedExplained(lib: Lib, fn: Fn, args: seq<Value>)
    requires MinArgs(fn) <= |args| && AllExplained(args)
    requires fn.If? ==> Judged(args[0])
    requires fn.AndAll? || fn.OrAll? ==> forall k :: 0 <= k < |args| ==> Judged(args[k])
    ensures Applied(lib, fn, args).Some? && Explained(Applied(lib, fn, args).value)
  {
    match fn
    case Between => RangeExplained(lib, args[0], args[1], args[2]);
    case If => OpenAsks(args[0]);
    case AndAll => FoldExplained(true, args[0], args[1..]);
    case OrAll => FoldExplained(false, args[0], args[1..]);
    case DateAdd => AddedExplained(lib, args[0], args[1], args[2]);
    case _ =>
  }

  /** A checked formula in which nothing ill-typed is judged gives no value that is unknown
      without a reason. */
  lemma {:induction false} WellTypedExplains(lib: Lib, sc: Scope, t: Tree)
    requires Checked(lib, sc, t) && WellTyped(lib, sc, t)
    ensures Eval(lib, sc, t).Some? && Explained(Eval(lib, sc, t).value)
    decreases t, 1
  {
    match t
    case Neg(x) =>
      WellTypedExplains(lib, sc, x);
      BinaryExplained(lib, Sub, Amount(0.0), Eval(lib, sc, x).value);
    case Not(x) =>
      WellTypedExplains(lib, sc, x);
      NegatedExplained(Eval(lib, sc, x).value);
    case Bin(op, l, r) =>
      WellTypedExplains(lib, sc, l);
      WellTypedExplains(lib, sc, r);
      BinaryExplained(lib, op, Eval(lib, sc, l).value, Eval(lib, sc, r).value);
    case Call(_, _) => CallExplains(lib, sc, t);
    case _ =>
  }

  lemma {:induction false} CallExplains(lib: Lib, sc: Scope, t: Tree)
    requires t.Call? && Checked(lib, sc, t) && WellTyped(lib, sc, t)
    ensures Eval(lib, sc, t).Some? && Explained(Eval(lib, sc, t).value)
    decreases t, 0
  {
    ArgsExplained(lib, sc, t.args);
    var vs := EvalAll(lib, sc, t.args).value;
    forall k | 0 <= k < |vs| ensures Eval(lib, sc, t.args[k]) == Some(vs[k]) {
      FormulaKnowledge.EvalAllIsEach(lib, sc, t.args, k);
    }
    AppliedExplained(lib, lib.functions(t.name).value, vs);
  }

  lemma {:induction false} ArgsExplained(lib: Lib, sc: Scope, args: seq<Tree>)
    requires AllChecked(lib, sc, args) && forall k :: 0 <= k < |args| ==> WellTyped(lib, sc, args[k])
    ensures EvalAll(lib, sc, args).Some? && AllExplained(EvalAll(lib, sc, args).value)
    decreases args, 1
  {
    if args != [] {
      WellTypedExplains(lib, sc, args[0]);
      ArgsExplained(lib, sc, args[1..]);
    }
  }

  /** Such a formula, when it gives a list, passes exactly when every item does. */
  lemma ListPassesWithItems(lib: Lib, sc: Scope, t: Tree, items: seq<Value>)
    requires Checked(lib, sc, t) && WellTyped(lib, sc, t)
    requires Eval(lib, sc, t) == Some(Many(items)) && items != []
    ensures Outcome(lib, sc, t) == Some(Pass) <==> forall k :: 0 <= k < |items| ==> VerdictOf(items[k]) == Pass
  {
    WellTypedExplains(lib, sc, t);
    forall k | 0 <= k < |items| ensures VerdictOf(items[k]) != Unclear([]) {
      OpenAsks(items[k]);
    }
    ListPasses(items);
  }

  // ------------------------------------------------------ SAME and MATCH on empty fields

  /** Of this field nothing is there in any document, or there is no document. */
  predicate NothingThere(sc: Scope, name: string, field: string) {
    if name in sc.single then FieldText(sc.single[name], field) == ""
    else if name in sc.singleType then true
    else
      var docs := GroupOf(sc, name);
      docs != [] && forall k :: 0 <= k < |docs| ==> FieldText(docs[k], field) == ""
  }

  lemma EmptyFieldIsMissing(lib: Lib, sc: Scope, name: string, field: string)
    requires NothingThere(sc, name, field)
    ensures var xs := Flat([MemberValue(lib, sc, name, field)]); xs != [] && AllMissing(xs)
  {
    var v := MemberValue(lib, sc, name, field);
    if v.Many? {
      FormulaKnowledge.FlatOfScalars(v.items);
      assert [v][1..] == [];
      Nothing(v.items);
      assert Flat([v]) == Flat(v.items) + Flat([]);
    } else {
      FormulaKnowledge.FlatOfScalars([v]);
    }
  }

  lemma PassesWhenTrue(lib: Lib, sc: Scope, t: Tree)
    ensures Eval(lib, sc, t) == Some(Truth(true)) ==> Outcome(lib, sc, t) == Some(Pass)
    ensures Eval(lib, sc, t) == Some(Truth(false)) ==> Outcome(lib, sc, Not(t)) == Some(Pass)
  {
  }

  /** NOT MATCH(a.x, b.y) */
  function NoMatch(a: string, x: string, b: string, y: string): Tree {
    Not(Call("MATCH", [Member(a, x), Member(b, y)]))
  }

  lemma MissingFieldsDoNotMatch(lib: Lib, sc: Scope, a: string, x: string, b: string, y: string, t: Tree)
    requires t.Call? && lib.functions(t.name) == Some(Match) && t.args == [Member(a, x), Member(b, y)]
    requires NothingThere(sc, a, x) && NothingThere(sc, b, y)
    ensures Eval(lib, sc, t) == Some(Truth(false))
  {
    var v, w := MemberValue(lib, sc, a, x), MemberValue(lib, sc, b, y);
    CallOf(lib, sc, t.name, Match, t.args, [v, w]);
    EmptyFieldIsMissing(lib, sc, a, x);
    EmptyFieldIsMissing(lib, sc, b, y);
    NothingDoesNotMatchNothing(lib, Flat([v]), Flat([w]), NEAR);
    assert Applied(lib, Match, [v, w]) == Some(Matching(lib, Flat([v]), Flat([w]), NEAR));
  }

  lemma NoMatchPasses(lib: Lib, sc: Scope, a: string, x: string, b: string, y: string, t: Tree)
    requires t.Call? && lib.functions(t.name) == Some(Match) && t.args == [Member(a, x), Member(b, y)]
    requires IsKnownField(sc, a, x) && IsKnownField(sc, b, y) && NothingThere(sc, a, x) && NothingThere(sc, b, y)
    ensures Checked(lib, sc, Not(t)) && Outcome(lib, sc, Not(t)) == Some(Pass)
  {
    CheckedCall(lib, sc, t.name, t.args);
    MissingFieldsDoNotMatch(lib, sc, a, x, b, y, t);
    PassesWhenTrue(lib, sc, t);
  }

  /** A check that two fields do not match passes when nothing of either is known, although a
      check with missing data is to be open. */
  lemma MissingFieldsPass(lib: Lib, sc: Scope, a: string, x: string, b: string, y: string)
    requires SourceNames(lib) && IsKnownField(sc, a, x) && IsKnownField(sc, b, y)
    requires NothingThere(sc, a, x) && NothingThere(sc, b, y)
    ensures Checked(lib, sc, NoMatch(a, x, b, y)) && Outcome(lib, sc, NoMatch(a, x, b, y)) == Some(Pass)
  {
    NamesFound(lib);
    NoMatchPasses(lib, sc, a, x, b, y, Call("MATCH", [Member(a, x), Member(b, y)]));
  }

  /** SAME(a.x, 1 AND 2) */
  function LonelySame(a: string, x: string): Tree {
    Call("SAME", [Member(a, x), Bin(AndOp, Num(1.0), Num(2.0))])
  }

  lemma LonelySameHolds(lib: Lib, sc: Scope, t: Tree, v: Value)
    requires t.Call? && lib.functions(t.name) == Some(Same) && |t.args| == 2
    requires Eval(lib, sc, t.args[0]) == Some(v) && t.args[1] == Bin(AndOp, Num(1.0), Num(2.0))
    requires !v.Blank? && !v.Many?
    ensures Eval(lib, sc, t) == Some(Truth(true))
  {
    IllTypedGivesNoReason(lib, sc);
    CallOf(lib, sc, t.name, Same, t.args, [v, Blank([])]);
    LonelyItems(lib, v);
    assert Applied(lib, Same, [v, Blank([])]) == Some(Sameness(lib, Flat([v, Blank([])])));
  }

  lemma LonelySamePasses(lib: Lib, sc: Scope, a: string, x: string, t: Tree)
    requires t.Call? && lib.functions(t.name) == Some(Same) && t.args == [Member(a, x), Bin(AndOp, Num(1.0), Num(2.0))]
    requires IsKnownField(sc, a, x) && a in sc.single && !MemberValue(lib, sc, a, x).Blank?
    ensures Checked(lib, sc, t) && Outcome(lib, sc, t) == Some(Pass)
  {
    CheckedCall(lib, sc, t.name, t.args);
    LonelySameHolds(lib, sc, t, MemberValue(lib, sc, a, x));
    PassesWhenTrue(lib, sc, t);
  }

  /** A single known value passes SAME beside a gap that gives no reason. */
  lemma LonelyValuePasses(lib: Lib, sc: Scope, a: string, x: string)
    requires SourceNames(lib) && IsKnownField(sc, a, x) && a in sc.single
    requires !MemberValue(lib, sc, a, x).Blank?
    ensures Checked(lib, sc, LonelySame(a, x)) && Outcome(lib, sc, LonelySame(a, x)) == Some(Pass)
    ensures SameMeant(lib, [MemberValue(lib, sc, a, x), Blank([])]) == Undecided
  {
    NamesFound(lib);
    LonelySamePasses(lib, sc, a, x, LonelySame(a, x));
    LonelyItems(lib, MemberValue(lib, sc, a, x));
  }

  lemma LonelyItems(lib: Lib, v: Value)
    requires !v.Blank? && !v.Many?
    ensures var items := [v, Blank([])];
            Flat(items) == items && Sameness(lib, items) == Truth(true) && SameMeant(lib, items) == Undecided
  {
    var items := [v, Blank([])];
    FormulaKnowledge.FlatOfScalars(items);
    assert items[1..] == [Blank([])] && items[1..][1..] == [];
    assert GivenIn(items[1..]) == [] && GivenIn(items) == [] && Known(items[1..]) == 0 && Known(items) == 1;
    OneKey(lib, items);
  }

  lemma {:induction false} KnownGiveNoReason(items: seq<Value>)
    requires forall k :: 0 <= k < |items| ==> !items[k].Blank?
    ensures GivenIn(items) == [] && Known(items) == |items|
  {
    if items != [] {
      KnownGiveNoReason(items[1..]);
    }
  }

  /** SAME(a.x + a.y, b.z, c.w) */
  function SumAmongTwo(a: string, x: string, y: string, b: string, z: string, c: string, w: string): Tree {
    Call("SAME", [Bin(Add, Member(a, x), Member(a, y)), Member(b, z), Member(c, w)])
  }

  /** A field of one document that is empty, and one that is not. */
  predicate IsEmpty(sc: Scope, name: string, field: string) {
    IsKnownField(sc, name, field) && name in sc.single && FieldText(sc.single[name], field) == ""
  }

  predicate IsThere(lib: Lib, sc: Scope, name: string, field: string) {
    IsKnownField(sc, name, field) && name in sc.single && !MemberValue(lib, sc, name, field).Blank?
  }

  lemma GapAmongTwo(lib: Lib, gap: Value, u: Value, v: Value)
    requires gap.Blank? && |gap.reasons| == 2 && !u.Blank? && !u.Many? && !v.Blank? && !v.Many?
    requires lib.key(u) == lib.key(v)
    ensures var items := [gap, u, v];
            && SameMeant(lib, items) == Yes
            && Applied(lib, Same, items) == Some(Blank(gap.reasons + [TooFewToCompare]))
  {
    var items := [gap, u, v];
    FormulaKnowledge.FlatOfScalars(items);
    assert items[1..] == [u, v];
    KnownGiveNoReason(items[1..]);
    Nothing(gap.reasons);
    assert GivenIn(items) == Given(items[0]) + GivenIn(items[1..]);
    assert Known(items) == Known(items[1..]);
  }

  lemma EmptySumOfTwo(lib: Lib, sc: Scope, a: string, x: string, y: string)
    requires IsEmpty(sc, a, x) && IsEmpty(sc, a, y)
    ensures var v := Eval(lib, sc, Bin(Add, Member(a, x), Member(a, y)));
            v.Some? && v.value.Blank? && |v.value.reasons| == 2
  {
    var l, r := MemberValue(lib, sc, a, x), MemberValue(lib, sc, a, y);
    assert l.Blank? && r.Blank? && |l.reasons| == |r.reasons| == 1;
    assert Eval(lib, sc, Bin(Add, Member(a, x), Member(a, y))) == Some(Binary(lib, Add, l, r));
  }

  lemma AsksWhenBlank(lib: Lib, sc: Scope, t: Tree, reasons: seq<Reason>)
    requires Eval(lib, sc, t) == Some(Blank(reasons)) && reasons != []
    ensures AsksForData(lib, sc, t)
  {
    assert reasons[0] in Distinct(reasons);
  }

  /** A search whose first argument is such a gap is open, although it is meant to be yes. */
  predicate OpenThoughAlike(lib: Lib, sc: Scope, t: Tree) {
    && t.Call? && Checked(lib, sc, t) && AsksForData(lib, sc, t)
    && EvalAll(lib, sc, t.args).Some? && SameMeant(lib, EvalAll(lib, sc, t.args).value) == Yes
  }

  lemma GapHidesTwo(lib: Lib, sc: Scope, t: Tree, gap: Value, u: Value, v: Value)
    requires t.Call? && lib.functions(t.name) == Some(Same) && |t.args| == 3 && Checked(lib, sc, t)
    requires Eval(lib, sc, t.args[0]) == Some(gap) && gap.Blank? && |gap.reasons| == 2
    requires Eval(lib, sc, t.args[1]) == Some(u) && !u.Blank? && !u.Many?
    requires Eval(lib, sc, t.args[2]) == Some(v) && !v.Blank? && !v.Many? && lib.key(u) == lib.key(v)
    ensures OpenThoughAlike(lib, sc, t)
  {
    CallOf(lib, sc, t.name, Same, t.args, [gap, u, v]);
    ArgumentsAre(lib, sc, t.args, [gap, u, v]);
    GapAmongTwo(lib, gap, u, v);
    AsksWhenBlank(lib, sc, t, gap.reasons + [TooFewToCompare]);
  }

  lemma SumIsChecked(lib: Lib, sc: Scope, a: string, x: string, y: string, t: Tree)
    requires t.Call? && lib.functions(t.name) == Some(Same) && |t.args| == 3
    requires t.args[0] == Bin(Add, Member(a, x), Member(a, y)) && IsKnownField(sc, a, x) && IsKnownField(sc, a, y)
    requires Checked(lib, sc, t.args[1]) && Checked(lib, sc, t.args[2])
    ensures Checked(lib, sc, t)
  {
    CheckedCall(lib, sc, t.name, t.args);
  }

  lemma SumHidesTwo(lib: Lib, sc: Scope, a: string, x: string, y: string, b: string, z: string, c: string, w: string,
                    t: Tree)
    requires t.Call? && lib.functions(t.name) == Some(Same)
    requires t.args == [Bin(Add, Member(a, x), Member(a, y)), Member(b, z), Member(c, w)]
    requires IsEmpty(sc, a, x) && IsEmpty(sc, a, y) && IsThere(lib, sc, b, z) && IsThere(lib, sc, c, w)
    requires lib.key(MemberValue(lib, sc, b, z)) == lib.key(MemberValue(lib, sc, c, w))
    ensures OpenThoughAlike(lib, sc, t)
  {
    EmptySumOfTwo(lib, sc, a, x, y);
    SumIsChecked(lib, sc, a, x, y, t);
    GapHidesTwo(lib, sc, t, Eval(lib, sc, t.args[0]).value, MemberValue(lib, sc, b, z), MemberValue(lib, sc, c, w));
  }

  /** A gap with two reasons takes two values away: beside a sum whose two summands are
      missing, two fields that are there and alike are not found to be the same. */
  lemma TwoReasonsHideTwoValues(lib: Lib, sc: Scope, a: string, x: string, y: string,
                                b: string, z: string, c: string, w: string)
    requires SourceNames(lib) && IsEmpty(sc, a, x) && IsEmpty(sc, a, y)
    requires IsThere(lib, sc, b, z) && IsThere(lib, sc, c, w)
    requires lib.key(MemberValue(lib, sc, b, z)) == lib.key(MemberValue(lib, sc, c, w))
    ensures OpenThoughAlike(lib, sc, SumAmongTwo(a, x, y, b, z, c, w))
  {
    NamesFound(lib);
    SumHidesTwo(lib, sc, a, x, y, b, z, c, w, SumAmongTwo(a, x, y, b, z, c, w));
  }
}
