/**
 Filling in missing data never changes an outcome that is already decided. Values are
 ordered by what is known; every operation of the fragment respects the order.
 */
module FormulaKnowledge {
  import opened Util
  import opened Sequences
  import opened FormulaSyntax
  import opened FormulaValues
  import opened FormulaEval

  // ---------------------------------------------------------------------- the order

  /** A missing value that says why it is missing. */
  predicate IsGap(v: Value) {
    v.Blank? && v.reasons != []
  }

  /** Nothing is known of `a` yet, or it is known and stays. */
  predicate ScalarLeq(a: Value, b: Value) {
    !a.Many? && !b.Many? && (IsGap(a) || a == b)
  }

  predicate YesNoOnly(items: seq<Value>) {
    forall k :: 0 <= k < |items| ==> items[k].Truth? || items[k].Blank?
  }

  predicate SomeYesNo(items: seq<Value>) {
    exists k :: 0 <= k < |items| && items[k].Truth?
  }

  /** A list keeps its length; where yes/no answers stand in it, its gaps are filled with
      such answers. */
  predicate ItemsLeq(a: seq<Value>, b: seq<Value>) {
    && |a| == |b|
    && (forall k :: 0 <= k < |a| ==> ScalarLeq(a[k], b[k]))
    && (YesNoOnly(a) && SomeYesNo(a) ==> YesNoOnly(b))
  }

  predicate Leq(a: Value, b: Value) {
    if a.Many? then b.Many? && ItemsLeq(a.items, b.items) else ScalarLeq(a, b)
  }

  predicate LeqAll(a: seq<Value>, b: seq<Value>) {
    |a| == |b| && forall k :: 0 <= k < |a| ==> Leq(a[k], b[k])
  }

  // -------------------------------------------------------------------- the verdicts

  lemma WrongItems(items: seq<Value>)
    requires forall k :: 0 <= k < |items| ==> !items[k].Many?
    ensures Has(items, Wrong) <==> !YesNoOnly(items)
  {
    if !YesNoOnly(items) {
      var k :| 0 <= k < |items| && !items[k].Truth? && !items[k].Blank?;
      assert VerdictOf(items[k]) == Wrong;
    }
  }

  /** Nothing in the list says that data is missing, so nothing in it can change. */
  lemma FullListStays(a: seq<Value>, b: seq<Value>)
    requires ItemsLeq(a, b) && MissingIn(a) == []
    ensures a == b
  {
    MissingInSome(a);
    forall k | 0 <= k < |a| ensures a[k] == b[k] {
      assert !Asks(VerdictOf(a[k]));
    }
  }

  /** A decided verdict stays: only a verdict that says that data is missing may change. */
  lemma VerdictStays(a: Value, b: Value)
    requires Leq(a, b) && !Asks(VerdictOf(a))
    ensures VerdictOf(b) == VerdictOf(a)
  {
    if a.Many? {
      var xs, ys := a.items, b.items;
      WrongItems(xs);
      WrongItems(ys);
      if Has(xs, Wrong) {
        var k :| 0 <= k < |xs| && VerdictOf(xs[k]) == Wrong;
        assert VerdictOf(ys[k]) == Wrong;
      } else if Has(xs, Fail) {
        var k :| 0 <= k < |xs| && VerdictOf(xs[k]) == Fail;
        assert xs[k].Truth? && VerdictOf(ys[k]) == Fail;
      } else {
        FullListStays(xs, ys);
      }
    }
  }

  // ------------------------------------------------------------------- the operators

  /** A verdict that asks for data may become any other. */
  predicate VerdictLeq(v: Verdict, w: Verdict) {
    Asks(v) || v == w
  }

  lemma CombinedGrows(conj: bool, lv: Verdict, lv': Verdict, rv: Verdict, rv': Verdict)
    requires VerdictLeq(lv, lv') && VerdictLeq(rv, rv')
    ensures ScalarLeq(Combined(conj, lv, rv), Combined(conj, lv', rv'))
  {
  }

  lemma VerdictGrows(a: Value, b: Value)
    requires Leq(a, b)
    ensures VerdictLeq(VerdictOf(a), VerdictOf(b))
  {
    if !Asks(VerdictOf(a)) {
      VerdictStays(a, b);
    }
  }

  lemma LogicGrows(conj: bool, l: Value, l': Value, r: Value, r': Value)
    requires Leq(l, l') && Leq(r, r')
    ensures Leq(Logic(conj, l, r), Logic(conj, l', r'))
  {
    VerdictGrows(l, l');
    VerdictGrows(r, r');
    CombinedGrows(conj, VerdictOf(l), VerdictOf(l'), VerdictOf(r), VerdictOf(r'));
  }

  /** A scalar that is, or is not, an answer to a yes/no question. */
  predicate Answers(v: Value, yesNo: bool) {
    !v.Many? && if yesNo then v.Truth? || v.Blank? else !v.Truth?
  }

  /** What an operator gives for known values: only yes/no answers, or none. */
  ghost predicate Uniform(f: (Value, Value) -> Value, yesNo: bool) {
    forall a, b :: Answers(f(a, b), yesNo)
  }

  lemma ScalarsGrow(l: Value, l': Value, r: Value, r': Value, f: (Value, Value) -> Value, yesNo: bool)
    requires ScalarLeq(l, l') && ScalarLeq(r, r') && Uniform(f, yesNo)
    ensures ScalarLeq(Broadcast(l, r, f), Broadcast(l', r', f))
    ensures Answers(Broadcast(l, r, f), yesNo) && Answers(Broadcast(l', r', f), yesNo)
  {
    assert Answers(f(l, r), yesNo) && Answers(f(l', r'), yesNo);
  }

  lemma LeftItemsGrow(l: Value, l': Value, r: Value, r': Value, f: (Value, Value) -> Value, yesNo: bool)
    requires l.Many? && !r.Many? && Leq(l, l') && Leq(r, r') && Uniform(f, yesNo)
    ensures Leq(Broadcast(l, r, f), Broadcast(l', r', f))
  {
    var xs, ys := Broadcast(l, r, f).items, Broadcast(l', r', f).items;
    forall k | 0 <= k < |xs| ensures ScalarLeq(xs[k], ys[k]) && Answers(xs[k], yesNo) && Answers(ys[k], yesNo) {
      ScalarsGrow(l.items[k], l'.items[k], r, r', f, yesNo);
    }
  }

  lemma RightItemsGrow(l: Value, l': Value, r: Value, r': Value, f: (Value, Value) -> Value, yesNo: bool)
    requires !l.Many? && r.Many? && Leq(l, l') && Leq(r, r') && Uniform(f, yesNo)
    ensures Leq(Broadcast(l, r, f), Broadcast(l', r', f))
  {
    var xs, ys := Broadcast(l, r, f).items, Broadcast(l', r', f).items;
    forall k | 0 <= k < |xs| ensures ScalarLeq(xs[k], ys[k]) && Answers(xs[k], yesNo) && Answers(ys[k], yesNo) {
      ScalarsGrow(l, l', r.items[k], r'.items[k], f, yesNo);
    }
  }

  /** Item by item or not, an operator respects what is known. */
  lemma BroadcastGrows(l: Value, l': Value, r: Value, r': Value, f: (Value, Value) -> Value, yesNo: bool)
    requires Leq(l, l') && Leq(r, r') && Uniform(f, yesNo)
    ensures Leq(Broadcast(l, r, f), Broadcast(l', r', f))
  {
    if l.Many? && r.Many? {
    } else if l.Many? {
      LeftItemsGrow(l, l', r, r', f, yesNo);
    } else if r.Many? {
      RightItemsGrow(l, l', r, r', f, yesNo);
    } else {
      ScalarsGrow(l, l', r, r', f, yesNo);
    }
  }

  lemma BinaryGrows(lib: Lib, op: BinOp, l: Value, l': Value, r: Value, r': Value)
    requires Leq(l, l') && Leq(r, r')
    ensures Leq(Binary(lib, op, l, r), Binary(lib, op, l', r'))
  {
    match op
    case OrOp => LogicGrows(false, l, l', r, r');
    case AndOp => LogicGrows(true, l, l', r, r');
    case Add => BroadcastGrows(l, l', r, r', (a, b) => Computed(lib, Add, a, b), false);
    case Sub => BroadcastGrows(l, l', r, r', (a, b) => Computed(lib, Sub, a, b), false);
    case Mul => BroadcastGrows(l, l', r, r', (a, b) => Computed(lib, Mul, a, b), false);
    case Div => BroadcastGrows(l, l', r, r', (a, b) => Computed(lib, Div, a, b), false);
    case _ => BroadcastGrows(l, l', r, r', (a, b) => Compared(lib, op, a, b), true);
  }

  /** Negation keeps which items are answers and which are blank. */
  lemma NegatedItem(v: Value, w: Value)
    requires ScalarLeq(v, w)
    ensures ScalarLeq(Negated(v), Negated(w))
    ensures Negated(v).Truth? == v.Truth? && Negated(v).Blank? == v.Blank?
    ensures Negated(w).Truth? == w.Truth? && Negated(w).Blank? == w.Blank?
  {
  }

  lemma NegatedGrows(a: Value, b: Value)
    requires Leq(a, b)
    ensures Leq(Negated(a), Negated(b))
  {
    if a.Many? {
      var xs, ys := Negated(a).items, Negated(b).items;
      forall k | 0 <= k < |xs|
        ensures ScalarLeq(xs[k], ys[k])
        ensures xs[k].Truth? == a.items[k].Truth? && xs[k].Blank? == a.items[k].Blank?
        ensures ys[k].Truth? == b.items[k].Truth? && ys[k].Blank? == b.items[k].Blank?
      {
        NegatedItem(a.items[k], b.items[k]);
      }
      if YesNoOnly(xs) && SomeYesNo(xs) {
        var k :| 0 <= k < |xs| && xs[k].Truth?;
        assert a.items[k].Truth?;
        assert YesNoOnly(a.items);
      }
    } else {
      NegatedItem(a, b);
    }
  }

  // ------------------------------------------------------------------- the functions

  lemma {:induction false} FlatOfScalars(items: seq<Value>)
    requires forall k :: 0 <= k < |items| ==> !items[k].Many?
    ensures Flat(items) == items
  {
    if items != [] {
      FlatOfScalars(items[1..]);
      assert items == [items[0]] + items[1..];
    }
  }

  lemma {:induction false} ComplaintsInParts(lib: Lib, agg: Agg, a: seq<Value>, b: seq<Value>)
    ensures Complaints(lib, agg, a + b) == Complaints(lib, agg, a) + Complaints(lib, agg, b)
  {
    if a == [] {
      Nothing(b);
      Nothing(Complaints(lib, agg, b));
    } else {
      assert (a + b)[1..] == a[1..] + b;
      ComplaintsInParts(lib, agg, a[1..], b);
      Rejoin(Complaint(lib, agg, a[0]), Complaints(lib, agg, a[1..]), Complaints(lib, agg, b));
    }
  }

  lemma {:induction false} UnspoiltItemsStay(lib: Lib, agg: Agg, a: seq<Value>, b: seq<Value>)
    requires |a| == |b| && forall k :: 0 <= k < |a| ==> ScalarLeq(a[k], b[k])
    requires Complaints(lib, agg, a) == []
    ensures a == b
  {
    if a != [] {
      assert Complaint(lib, agg, a[0]) == [] && Complaints(lib, agg, a[1..]) == [];
      UnspoiltItemsStay(lib, agg, a[1..], b[1..]);
      assert a == [a[0]] + a[1..] && b == [b[0]] + b[1..];
    }
  }

  /** An aggregate is computed only when nothing it reads can change any more. */
  lemma {:induction false} FlatStays(lib: Lib, agg: Agg, a: seq<Value>, b: seq<Value>)
    requires LeqAll(a, b) && Complaints(lib, agg, Flat(a)) == []
    ensures Flat(a) == Flat(b)
    decreases |a|
  {
    if a != [] {
      assert Leq(a[0], b[0]);
      var head := if a[0].Many? then Flat(a[0].items) else [a[0]];
      ComplaintsInParts(lib, agg, head, Flat(a[1..]));
      if a[0].Many? {
        FlatOfScalars(a[0].items);
        FlatOfScalars(b[0].items);
        UnspoiltItemsStay(lib, agg, a[0].items, b[0].items);
      } else {
        UnspoiltItemsStay(lib, agg, [a[0]], [b[0]]);
        assert [a[0]][0] == [b[0]][0];
      }
      FlatStays(lib, agg, a[1..], b[1..]);
    }
  }

  lemma AggregatedGrows(lib: Lib, agg: Agg, a: seq<Value>, b: seq<Value>)
    requires LeqAll(a, b)
    ensures Leq(Aggregated(lib, agg, a), Aggregated(lib, agg, b))
  {
    if Complaints(lib, agg, Flat(a)) == [] {
      FlatStays(lib, agg, a, b);
    }
  }

  lemma InRangeGrows(lib: Lib, x: Value, lo: Value, lo': Value, hi: Value, hi': Value)
    requires !x.Many? && Leq(lo, lo') && Leq(hi, hi')
    ensures ScalarLeq(InRange(lib, x, lo, hi), InRange(lib, x, lo', hi'))
  {
  }

  lemma RangeItemGrows(lib: Lib, x: Value, x': Value, lo: Value, lo': Value, hi: Value, hi': Value)
    requires ScalarLeq(x, x') && Leq(lo, lo') && Leq(hi, hi')
    ensures ScalarLeq(AllInRange(lib, x, lo, hi), AllInRange(lib, x', lo', hi'))
    ensures Answers(AllInRange(lib, x, lo, hi), true) && Answers(AllInRange(lib, x', lo', hi'), true)
  {
    InRangeGrows(lib, x, lo, lo', hi, hi');
  }

  lemma RangeGrows(lib: Lib, x: Value, x': Value, lo: Value, lo': Value, hi: Value, hi': Value)
    requires Leq(x, x') && Leq(lo, lo') && Leq(hi, hi')
    ensures Leq(AllInRange(lib, x, lo, hi), AllInRange(lib, x', lo', hi'))
  {
    if x.Many? {
      var xs, ys := AllInRange(lib, x, lo, hi).items, AllInRange(lib, x', lo', hi').items;
      forall k | 0 <= k < |xs| ensures ScalarLeq(xs[k], ys[k]) && Answers(xs[k], true) && Answers(ys[k], true) {
        RangeItemGrows(lib, x.items[k], x'.items[k], lo, lo', hi, hi');
      }
    } else {
      RangeItemGrows(lib, x, x', lo, lo', hi, hi');
    }
  }

  /** No unit of time is spelled by the empty text. */
  lemma AddedItemGrows(lib: Lib, x: Value, x': Value, n: Value, n': Value, u: Value, u': Value)
    requires ScalarLeq(x, x') && Leq(n, n') && Leq(u, u') && lib.unit("") == None
    ensures ScalarLeq(AddedTo(lib, x, n, u), AddedTo(lib, x', n', u'))
    ensures Answers(AddedTo(lib, x, n, u), false) && Answers(AddedTo(lib, x', n', u'), false)
  {
  }

  lemma AddedItemsGrow(lib: Lib, x: Value, x': Value, n: Value, n': Value, u: Value, u': Value)
    requires x.Many? && Leq(x, x') && Leq(n, n') && Leq(u, u') && lib.unit("") == None
    ensures Leq(AddedTo(lib, x, n, u), AddedTo(lib, x', n', u'))
  {
    var xs, ys := AddedTo(lib, x, n, u).items, AddedTo(lib, x', n', u').items;
    forall k | 0 <= k < |xs| ensures ScalarLeq(xs[k], ys[k]) && Answers(xs[k], false) && Answers(ys[k], false) {
      AddedItemGrows(lib, x.items[k], x'.items[k], n, n', u, u');
    }
  }

  lemma AddedGrows(lib: Lib, x: Value, x': Value, n: Value, n': Value, u: Value, u': Value)
    requires Leq(x, x') && Leq(n, n') && Leq(u, u') && lib.unit("") == None
    ensures Leq(AddedTo(lib, x, n, u), AddedTo(lib, x', n', u'))
  {
    if x.Many? {
      AddedItemsGrow(lib, x, x', n, n', u, u');
    } else {
      AddedItemGrows(lib, x, x', n, n', u, u');
    }
  }

  lemma {:induction false} FoldGrows(conj: bool, v: Value, v': Value, rest: seq<Value>, rest': seq<Value>)
    requires Leq(v, v') && LeqAll(rest, rest')
    ensures Leq(FoldLogic(conj, v, rest), FoldLogic(conj, v', rest'))
    decreases |rest|
  {
    if rest != [] {
      assert Leq(rest[0], rest'[0]);
      LogicGrows(conj, v, v', rest[0], rest'[0]);
      FoldGrows(conj, Logic(conj, v, rest[0]), Logic(conj, v', rest'[0]), rest[1..], rest'[1..]);
    }
  }

  /** An undecided condition leaves the choice open, unless its verdict can never change. */
  lemma ChosenGrows(a: seq<Value>, b: seq<Value>)
    requires LeqAll(a, b) && |a| >= 2
    requires forall k :: 1 <= k < |a| ==> !a[k].Many?
    ensures Chosen(a).Some? && Chosen(b).Some? && Leq(Chosen(a).value, Chosen(b).value)
  {
    assert Leq(a[0], b[0]) && Leq(a[1], b[1]);
    assert |a| > 2 ==> Leq(a[2], b[2]);
    if !Asks(VerdictOf(a[0])) {
      VerdictStays(a[0], b[0]);
    }
  }

  /** The functions that respect what is known; the others decide on a gap itself. */
  predicate Respects(fn: Fn) {
    || fn.Aggregate? || fn.Abs? || fn.Round? || fn.Between?
    || fn.AndAll? || fn.OrAll? || fn.DateAdd? || fn.Today? || fn.If?
  }

  lemma AppliedGrows(lib: Lib, fn: Fn, a: seq<Value>, b: seq<Value>)
    requires LeqAll(a, b) && Respects(fn) && MinArgs(fn) <= |a| && lib.unit("") == None
    requires fn.Round? && |a| > 1 ==> a[1] == b[1]
    requires fn.If? ==> forall k :: 1 <= k < |a| ==> !a[k].Many?
    ensures Applied(lib, fn, a).Some? && Applied(lib, fn, b).Some?
    ensures Leq(Applied(lib, fn, a).value, Applied(lib, fn, b).value)
  {
    assert forall k :: 0 <= k < |a| ==> Leq(a[k], b[k]);
    match fn
    case Aggregate(agg) => AggregatedGrows(lib, agg, a, b);
    case Between => RangeGrows(lib, a[0], b[0], a[1], b[1], a[2], b[2]);
    case If => ChosenGrows(a, b);
    case AndAll => FoldGrows(true, a[0], b[0], a[1..], b[1..]);
    case OrAll => FoldGrows(false, a[0], b[0], a[1..], b[1..]);
    case DateAdd => AddedGrows(lib, a[0], b[0], a[1], b[1], a[2], b[2]);
    case _ =>
  }

  // -------------------------------------------------------------- filling in the fields

  predicate Readable(lib: Lib, kind: Kind, t: string) {
    match kind
    case NumberKind => lib.number(t).Some?
    case DateKind => lib.date(t).Some?
    case TruthKind => lib.truth(t).Some?
    case TextKind => true
  }

  /** The field keeps its text, or was empty and now holds a text of its kind. */
  predicate FieldFills(lib: Lib, kind: Kind, d: Doc, d': Doc, field: string) {
    FieldText(d', field) == FieldText(d, field) ||
    (FieldText(d, field) == "" && Readable(lib, kind, FieldText(d', field)))
  }

  ghost predicate DocFills(lib: Lib, sc: Scope, name: string, d: Doc, d': Doc) {
    d'.title == d.title && forall field :: FieldFills(lib, KindOf(sc, name, field), d, d', field)
  }

  /** The same documents, some of their empty fields filled in. */
  ghost predicate Fills(lib: Lib, sc: Scope, sc': Scope) {
    && sc'.types == sc.types && sc'.singleType == sc.singleType
    && sc'.single.Keys == sc.single.Keys && sc'.groups.Keys == sc.groups.Keys
    && (forall name :: name in sc.single ==> DocFills(lib, sc, name, sc.single[name], sc'.single[name]))
    && (forall name :: name in sc.groups ==> |sc'.groups[name]| == |sc.groups[name]|)
    && (forall name, k :: name in sc.groups && 0 <= k < |sc.groups[name]| ==>
          DocFills(lib, sc, name, sc.groups[name][k], sc'.groups[name][k]))
  }

  lemma FieldGrows(lib: Lib, name: string, kind: Kind, d: Doc, d': Doc, field: string)
    requires FieldFills(lib, kind, d, d', field)
    ensures var a, b := FieldOf(lib, name, kind, d, field), FieldOf(lib, name, kind, d', field);
            && ScalarLeq(a, b)
            && (kind.TruthKind? ==> a.Truth? || a.Blank? ==> b.Truth? || b.Blank?)
            && (!kind.TruthKind? ==> !a.Truth?)
  {
  }

  lemma MemberGrows(lib: Lib, sc: Scope, sc': Scope, name: string, field: string)
    requires Fills(lib, sc, sc')
    ensures Leq(MemberValue(lib, sc, name, field), MemberValue(lib, sc', name, field))
  {
    var kind := KindOf(sc, name, field);
    if name in sc.single {
      assert DocFills(lib, sc, name, sc.single[name], sc'.single[name]);
      FieldGrows(lib, name, kind, sc.single[name], sc'.single[name], field);
    } else if name !in sc.singleType {
      var docs, docs' := GroupOf(sc, name), GroupOf(sc', name);
      var xs, ys := MemberValue(lib, sc, name, field).items, MemberValue(lib, sc', name, field).items;
      forall k | 0 <= k < |xs|
        ensures ScalarLeq(xs[k], ys[k])
        ensures kind.TruthKind? ==> xs[k].Truth? || xs[k].Blank? ==> ys[k].Truth? || ys[k].Blank?
        ensures !kind.TruthKind? ==> !xs[k].Truth?
      {
        assert DocFills(lib, sc, name, docs[k], docs'[k]);
        FieldGrows(lib, name, kind, docs[k], docs'[k], field);
      }
    }
  }

  lemma NameGrows(lib: Lib, sc: Scope, sc': Scope, name: string)
    requires Fills(lib, sc, sc')
    ensures Leq(NameValue(sc, name), NameValue(sc', name))
  {
    if name in sc.single {
      assert DocFills(lib, sc, name, sc.single[name], sc'.single[name]);
    } else {
      var docs, docs' := GroupOf(sc, name), GroupOf(sc', name);
      var xs, ys := NameValue(sc, name).items, NameValue(sc', name).items;
      forall k | 0 <= k < |xs| ensures ScalarLeq(xs[k], ys[k]) {
        assert DocFills(lib, sc, name, docs[k], docs'[k]);
      }
    }
  }

  // ------------------------------------------------------------------- the fragment

  /** Formulas that give no list, whatever the documents hold. */
  predicate IsScalar(lib: Lib, sc: Scope, t: Tree)
    decreases t
  {
    match t
    case Ident(name) => name in sc.single
    case Member(name, _) => name in sc.single || name in sc.singleType
    case Neg(x) => IsScalar(lib, sc, x)
    case Not(x) => IsScalar(lib, sc, x)
    case Bin(op, l, r) => op.OrOp? || op.AndOp? || (IsScalar(lib, sc, l) && IsScalar(lib, sc, r))
    case Call(name, args) =>
      lib.functions(name).Some? &&
      (match lib.functions(name).value
       case Aggregate(_) => true
       case Count => true
       case Exists => true
       case Abs => true
       case Round => true
       case Today => true
       case Between => args != [] && IsScalar(lib, sc, args[0])
       case DateAdd => args != [] && IsScalar(lib, sc, args[0])
       case AndAll => |args| >= 2
       case OrAll => |args| >= 2
       case If => forall k :: 1 <= k < |args| ==> IsScalar(lib, sc, args[k])
       case _ => false)
    case _ => true
  }

  /** Fields, names, literals, operators, and the functions that respect what is known: a
      choice between scalars, and rounding to a literal number of digits. */
  predicate InFragment(lib: Lib, sc: Scope, t: Tree)
    decreases t
  {
    match t
    case Neg(x) => InFragment(lib, sc, x)
    case Not(x) => InFragment(lib, sc, x)
    case Bin(_, l, r) => InFragment(lib, sc, l) && InFragment(lib, sc, r)
    case Call(name, args) =>
      && lib.functions(name).Some? && Respects(lib.functions(name).value)
      && (lib.functions(name).value.Round? && |args| > 1 ==> args[1].Num?)
      && (lib.functions(name).value.If? ==> forall k :: 1 <= k < |args| ==> IsScalar(lib, sc, args[k]))
      && forall k :: 0 <= k < |args| ==> InFragment(lib, sc, args[k])
    case _ => true
  }

  lemma {:induction false} EvalAllIsEach(lib: Lib, sc: Scope, args: seq<Tree>, k: nat)
    requires EvalAll(lib, sc, args).Some? && k < |args|
    ensures Eval(lib, sc, args[k]) == Some(EvalAll(lib, sc, args).value[k])
  {
    if k > 0 {
      EvalAllIsEach(lib, sc, args[1..], k - 1);
    }
  }

  lemma FoldIsScalar(conj: bool, v: Value, rest: seq<Value>)
    requires !v.Many? || rest != []
    ensures !FoldLogic(conj, v, rest).Many?
    decreases |rest|
  {
    if rest != [] {
      FoldIsScalar(conj, Logic(conj, v, rest[0]), rest[1..]);
    }
  }

  /** Operators on scalars give scalars. */
  lemma BinaryOfScalars(lib: Lib, op: BinOp, l: Value, r: Value)
    requires op.OrOp? || op.AndOp? || (!l.Many? && !r.Many?)
    ensures !Binary(lib, op, l, r).Many?
  {
  }

  lemma {:induction false} ScalarsGiveScalars(lib: Lib, sc: Scope, t: Tree)
    requires IsScalar(lib, sc, t) && Checked(lib, sc, t) && Eval(lib, sc, t).Some?
    ensures !Eval(lib, sc, t).value.Many?
    decreases t, 1
  {
    match t
    case Neg(x) =>
      ScalarsGiveScalars(lib, sc, x);
      BinaryOfScalars(lib, Sub, Amount(0.0), Eval(lib, sc, x).value);
    case Not(x) => ScalarsGiveScalars(lib, sc, x);
    case Bin(_, _, _) => ScalarOperators(lib, sc, t);
    case Call(_, _) => ScalarCalls(lib, sc, t);
    case _ =>
  }

  lemma {:induction false} ScalarOperators(lib: Lib, sc: Scope, t: Tree)
    requires t.Bin? && IsScalar(lib, sc, t) && Checked(lib, sc, t) && Eval(lib, sc, t).Some?
    ensures !Eval(lib, sc, t).value.Many?
    decreases t, 0
  {
    if !t.op.OrOp? && !t.op.AndOp? {
      ScalarsGiveScalars(lib, sc, t.l);
      ScalarsGiveScalars(lib, sc, t.r);
    }
    BinaryOfScalars(lib, t.op, Eval(lib, sc, t.l).value, Eval(lib, sc, t.r).value);
  }

  lemma {:induction false} CheckedArgs(lib: Lib, sc: Scope, args: seq<Tree>, k: nat)
    requires AllChecked(lib, sc, args) && k < |args|
    ensures Checked(lib, sc, args[k])
  {
    if k > 0 {
      CheckedArgs(lib, sc, args[1..], k - 1);
    }
  }

  lemma {:induction false} ScalarCalls(lib: Lib, sc: Scope, t: Tree)
    requires t.Call? && IsScalar(lib, sc, t) && Checked(lib, sc, t) && Eval(lib, sc, t).Some?
    ensures !Eval(lib, sc, t).value.Many?
    decreases t, 0
  {
    var vs := EvalAll(lib, sc, t.args).value;
    forall k | 0 <= k < |vs| && IsScalar(lib, sc, t.args[k]) ensures !vs[k].Many? {
      EvalAllIsEach(lib, sc, t.args, k);
      CheckedArgs(lib, sc, t.args, k);
      ScalarsGiveScalars(lib, sc, t.args[k]);
    }
    match lib.functions(t.name).value
    case AndAll => FoldIsScalar(true, vs[0], vs[1..]);
    case OrAll => FoldIsScalar(false, vs[0], vs[1..]);
    case _ =>
  }

  /** Knowledge monotonicity: when empty fields are filled in, what a formula gives either
      stays or becomes known. */
  lemma {:induction false} KnowledgeGrows(lib: Lib, sc: Scope, sc': Scope, t: Tree)
    requires Checked(lib, sc, t) && InFragment(lib, sc, t)
    requires Fills(lib, sc, sc') && lib.unit("") == None
    ensures Eval(lib, sc, t).Some? && Eval(lib, sc', t).Some?
    ensures Leq(Eval(lib, sc, t).value, Eval(lib, sc', t).value)
    decreases t
  {
    match t
    case Ident(name) => NameGrows(lib, sc, sc', name);
    case Member(name, field) =>
      MemberGrows(lib, sc, sc', name, field);
    case Neg(x) =>
      KnowledgeGrows(lib, sc, sc', x);
      BinaryGrows(lib, Sub, Amount(0.0), Amount(0.0), Eval(lib, sc, x).value, Eval(lib, sc', x).value);
    case Not(x) =>
      KnowledgeGrows(lib, sc, sc', x);
      NegatedGrows(Eval(lib, sc, x).value, Eval(lib, sc', x).value);
    case Bin(op, l, r) =>
      KnowledgeGrows(lib, sc, sc', l);
      KnowledgeGrows(lib, sc, sc', r);
      BinaryGrows(lib, op, Eval(lib, sc, l).value, Eval(lib, sc', l).value,
                  Eval(lib, sc, r).value, Eval(lib, sc', r).value);
    case Call(_, _) => CallGrows(lib, sc, sc', t);
    case _ =>
  }

  lemma {:induction false} CallGrows(lib: Lib, sc: Scope, sc': Scope, t: Tree)
    requires t.Call? && Checked(lib, sc, t) && InFragment(lib, sc, t)
    requires Fills(lib, sc, sc') && lib.unit("") == None
    ensures Eval(lib, sc, t).Some? && Eval(lib, sc', t).Some?
    ensures Leq(Eval(lib, sc, t).value, Eval(lib, sc', t).value)
    decreases t, 0
  {
    ArgsGrow(lib, sc, sc', t.args);
    var a, b := EvalAll(lib, sc, t.args).value, EvalAll(lib, sc', t.args).value;
    var fn := lib.functions(t.name).value;
    if fn.Round? && |a| > 1 {
      EvalAllIsEach(lib, sc, t.args, 1);
      EvalAllIsEach(lib, sc', t.args, 1);
    }
    if fn.If? {
      forall k | 1 <= k < |a| ensures !a[k].Many? {
        EvalAllIsEach(lib, sc, t.args, k);
        CheckedArgs(lib, sc, t.args, k);
        ScalarsGiveScalars(lib, sc, t.args[k]);
      }
    }
    AppliedGrows(lib, fn, a, b);
  }

  lemma LeqCons(a: Value, b: Value, rest: seq<Value>, more: seq<Value>)
    requires Leq(a, b) && LeqAll(rest, more)
    ensures LeqAll([a] + rest, [b] + more)
  {
    forall k | 0 <= k < |rest| + 1 ensures Leq(([a] + rest)[k], ([b] + more)[k]) {
      assert k > 0 ==> Leq(rest[k - 1], more[k - 1]);
    }
  }

  lemma {:induction false} ArgsGrow(lib: Lib, sc: Scope, sc': Scope, args: seq<Tree>)
    requires AllChecked(lib, sc, args) && forall k :: 0 <= k < |args| ==> InFragment(lib, sc, args[k])
    requires Fills(lib, sc, sc') && lib.unit("") == None
    ensures EvalAll(lib, sc, args).Some? && EvalAll(lib, sc', args).Some?
    ensures LeqAll(EvalAll(lib, sc, args).value, EvalAll(lib, sc', args).value)
    decreases args
  {
    if args != [] {
      KnowledgeGrows(lib, sc, sc', args[0]);
      ArgsGrow(lib, sc, sc', args[1..]);
      LeqCons(Eval(lib, sc, args[0]).value, Eval(lib, sc', args[0]).value,
              EvalAll(lib, sc, args[1..]).value, EvalAll(lib, sc', args[1..]).value);
    }
  }

  /** A check that passes or fails keeps doing so when empty fields are filled in with texts
      of their kind. */
  lemma DecidedStaysDecided(lib: Lib, sc: Scope, sc': Scope, t: Tree)
    requires Checked(lib, sc, t) && InFragment(lib, sc, t)
    requires Fills(lib, sc, sc') && lib.unit("") == None
    requires Outcome(lib, sc, t) == Some(Pass) || Outcome(lib, sc, t) == Some(Fail)
    ensures Outcome(lib, sc', t) == Outcome(lib, sc, t)
  {
    KnowledgeGrows(lib, sc, sc', t);
    VerdictStays(Eval(lib, sc, t).value, Eval(lib, sc', t).value);
  }
}
