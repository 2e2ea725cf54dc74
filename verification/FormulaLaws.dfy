/**
 What the operators and functions of the formulas mean, stated without naming how they
 are computed.
 */
module FormulaLaws {
  import opened Util
  import opened Sequences
  import opened FormulaSyntax
  import opened FormulaValues
  import opened FormulaEval

  /** The same outcome, whatever reasons are given. */
  predicate SameStatus(v: Verdict, w: Verdict) {
    v.Pass? == w.Pass? && v.Fail? == w.Fail? && v.Unclear? == w.Unclear?
  }

  /** An answer to a yes/no question, or none yet. */
  predicate IsAnswer(v: Value) {
    v.Truth? || v.Blank?
  }

  // ---------------------------------------------------------------- three-valued logic

  /** On answers AND and OR are the usual ones; one `no` decides an AND and one `yes` an OR,
      whatever the other side is; otherwise nothing is decided, and data is asked for when a
      side asks for it. */
  lemma LogicTable(conj: bool, l: Value, r: Value)
    ensures var v := VerdictOf(Logic(conj, l, r));
            && (v == Pass <==> if conj then VerdictOf(l) == Pass && VerdictOf(r) == Pass
                               else VerdictOf(l) == Pass || VerdictOf(r) == Pass)
            && (v == Fail <==> if conj then VerdictOf(l) == Fail || VerdictOf(r) == Fail
                               else VerdictOf(l) == Fail && VerdictOf(r) == Fail)
            && v != Wrong
            && (v.Unclear? ==> (Asks(v) <==> Asks(VerdictOf(l)) || Asks(VerdictOf(r))))
  {
  }

  /** The negation of an AND of scalars is the OR of their negations. */
  lemma DeMorgan(conj: bool, l: Value, r: Value)
    requires (l.Truth? || l.Blank?) && (r.Truth? || r.Blank?)
    ensures Negated(Logic(conj, l, r)) == Logic(!conj, Negated(l), Negated(r))
  {
  }

  lemma {:induction false} NegatedTwice(v: Value)
    ensures Negated(Negated(v)) == v
  {
    if v.Many? {
      var w := Negated(Negated(v));
      forall k | 0 <= k < |v.items| ensures w.items[k] == v.items[k] {
        NegatedTwice(v.items[k]);
      }
      assert w.items == v.items;
    }
  }

  // -------------------------------------------------------------------------- lists

  lemma SameItems(a: seq<Value>, b: seq<Value>)
    requires multiset(a) == multiset(b)
    ensures forall x :: x in a ==> x in b
  {
    forall x | x in a ensures x in b {
      assert x in multiset(a);
    }
  }

  lemma HasTransfers(a: seq<Value>, b: seq<Value>, x: Verdict)
    requires forall v :: v in a ==> v in b
    ensures Has(a, x) ==> Has(b, x)
  {
    if Has(a, x) {
      var k :| 0 <= k < |a| && VerdictOf(a[k]) == x;
      assert a[k] in b;
      var j :| 0 <= j < |b| && b[j] == a[k];
      assert VerdictOf(b[j]) == x;
    }
  }

  lemma {:induction false} MissingOfItem(items: seq<Value>, x: Reason)
    ensures x in MissingIn(items) <==> exists v :: v in items && x in Missing(VerdictOf(v))
  {
    if items != [] {
      MissingOfItem(items[1..], x);
      if v :| v in items[1..] && x in Missing(VerdictOf(v)) {
        assert v in items;
      }
      if v :| v in items && x in Missing(VerdictOf(v)) {
        assert v == items[0] || v in items[1..];
      }
      assert x in Missing(VerdictOf(items[0])) ==> items[0] in items;
    }
  }

  lemma MissingTransfers(a: seq<Value>, b: seq<Value>)
    requires forall v :: v in a ==> v in b
    ensures forall x :: x in MissingIn(a) ==> x in MissingIn(b)
  {
    forall x | x in MissingIn(a) ensures x in MissingIn(b) {
      MissingOfItem(a, x);
      MissingOfItem(b, x);
    }
  }

  /** The order of the items does not matter to the verdict of a list: it has the same
      outcome, and asks for the same data. */
  lemma OrderDoesNotMatter(a: seq<Value>, b: seq<Value>)
    requires multiset(a) == multiset(b)
    ensures SameStatus(VerdictOf(Many(a)), VerdictOf(Many(b)))
    ensures forall x :: x in Missing(VerdictOf(Many(a))) <==> x in Missing(VerdictOf(Many(b)))
  {
    SameItems(a, b);
    SameItems(b, a);
    HasTransfers(a, b, Wrong);
    HasTransfers(b, a, Wrong);
    HasTransfers(a, b, Fail);
    HasTransfers(b, a, Fail);
    MissingTransfers(a, b);
    MissingTransfers(b, a);
    assert |a| == |multiset(a)| == |multiset(b)| == |b|;
    assert MissingIn(a) == [] <==> MissingIn(b) == [] by {
      assert MissingIn(a) != [] ==> MissingIn(a)[0] in MissingIn(b);
      assert MissingIn(b) != [] ==> MissingIn(b)[0] in MissingIn(a);
    }
  }

  lemma StatusOfList(items: seq<Value>)
    requires items != [] && forall k :: 0 <= k < |items| ==> IsAnswer(items[k])
    ensures var v := VerdictOf(Many(items));
            && (v.Fail? <==> exists k :: 0 <= k < |items| && items[k] == Truth(false))
            && (v.Pass? <==> forall k :: 0 <= k < |items| ==> items[k] == Truth(true) || items[k] == Blank([]))
            && v != Wrong
  {
    assert !Has(items, Wrong);
    ListPasses(items);
    if k :| 0 <= k < |items| && items[k] == Truth(false) {
      assert VerdictOf(items[k]) == Fail;
    }
    forall k | 0 <= k < |items| && items[k].Blank? && VerdictOf(items[k]) == Unclear([]) ensures items[k] == Blank([]) {
      assert items[k].reasons == [];
    }
  }

  lemma {:induction false} FoldedAnswers(v: Value, rest: seq<Value>)
    requires IsAnswer(v) && forall k :: 0 <= k < |rest| ==> IsAnswer(rest[k])
    ensures var w := FoldLogic(true, v, rest);
            && IsAnswer(w)
            && (w == Truth(true) <==> v == Truth(true) && forall k :: 0 <= k < |rest| ==> rest[k] == Truth(true))
            && (w == Truth(false) <==> v == Truth(false) || exists k :: 0 <= k < |rest| && rest[k] == Truth(false))
    decreases |rest|
  {
    if rest != [] {
      var u := Logic(true, v, rest[0]);
      FoldedAnswers(u, rest[1..]);
      assert forall k :: 0 < k < |rest| ==> rest[k] == rest[1..][k - 1];
    }
  }

  /** A list check is the AND of its items exactly when it fails, or asks for data, or every
      item is answered: items that are unknown without a reason keep an AND from passing, but
      not a list. */
  lemma ListIsConjunction(items: seq<Value>)
    requires items != [] && forall k :: 0 <= k < |items| ==> IsAnswer(items[k])
    ensures SameStatus(VerdictOf(Many(items)), VerdictOf(FoldLogic(true, items[0], items[1..]))) <==>
            || (exists k :: 0 <= k < |items| && items[k] == Truth(false))
            || (exists k :: 0 <= k < |items| && items[k].Blank? && items[k].reasons != [])
            || (forall k :: 0 <= k < |items| ==> items[k].Truth?)
  {
    FoldedAnswers(items[0], items[1..]);
    StatusOfList(items);
    forall x: bool
      ensures (exists k :: 0 <= k < |items| && items[k] == Truth(x)) <==>
              (items[0] == Truth(x) || exists k :: 0 <= k < |items[1..]| && items[1..][k] == Truth(x))
    {
      if k :| 0 < k < |items| && items[k] == Truth(x) {
        assert items[1..][k - 1] == Truth(x);
      }
      if k :| 0 <= k < |items[1..]| && items[1..][k] == Truth(x) {
        assert items[k + 1] == Truth(x);
      }
    }
    assert (forall k :: 0 <= k < |items| ==> items[k] == Truth(true)) <==>
           (items[0] == Truth(true) && forall k :: 0 <= k < |items[1..]| ==> items[1..][k] == Truth(true)) by {
      assert forall k :: 0 < k < |items| ==> items[k] == items[1..][k - 1];
      assert forall k :: 0 <= k < |items[1..]| ==> items[1..][k] == items[k + 1];
    }
  }

  // ------------------------------------------------------------------- comparisons

  /** Values that are ordered: two amounts, or two days. */
  predicate Ordered(a: Value, b: Value) {
    (a.Amount? && b.Amount?) || (a.Day? && b.Day?)
  }

  predicate Is(lib: Lib, op: BinOp, a: Value, b: Value) {
    Compared(lib, op, a, b) == Truth(true)
  }

  /** Of two amounts or days exactly one of smaller, equal and greater holds, the other
      comparisons are their negations, and turning the operands round turns the order. */
  lemma ComparisonsAreAnOrder(lib: Lib, a: Value, b: Value)
    requires Ordered(a, b)
    ensures Is(lib, Lt, a, b) || Is(lib, Eq, a, b) || Is(lib, Gt, a, b)
    ensures !(Is(lib, Lt, a, b) && Is(lib, Eq, a, b)) && !(Is(lib, Lt, a, b) && Is(lib, Gt, a, b))
    ensures !(Is(lib, Eq, a, b) && Is(lib, Gt, a, b))
    ensures Is(lib, Le, a, b) <==> !Is(lib, Gt, a, b)
    ensures Is(lib, Ge, a, b) <==> !Is(lib, Lt, a, b)
    ensures Is(lib, Ne, a, b) <==> !Is(lib, Eq, a, b)
    ensures Is(lib, Lt, a, b) <==> Is(lib, Gt, b, a)
  {
  }

  /** Amounts are told apart from half a cent on. */
  lemma AmountsCompare(lib: Lib, x: real, y: real)
    ensures Is(lib, Eq, Amount(x), Amount(y)) <==> -0.005 < x - y < 0.005
    ensures Is(lib, Lt, Amount(x), Amount(y)) <==> x + 0.005 <= y
  {
  }

  /** Answers, texts and mixed values can be equal or not, by value or by key; only answers
      can also be put in order, and two different ones then count as greater both ways. */
  lemma OtherValuesCompare(lib: Lib, a: Value, b: Value)
    requires !Ordered(a, b)
    ensures Is(lib, Eq, a, b) <==> if a.Truth? && b.Truth? then a == b else lib.key(a) == lib.key(b)
    ensures Is(lib, Ne, a, b) <==> !Is(lib, Eq, a, b)
    ensures Is(lib, Gt, a, b) <==> a.Truth? && b.Truth? && a != b
    ensures Is(lib, Gt, a, b) <==> Is(lib, Gt, b, a)
  {
  }

  function Opposite(op: BinOp): BinOp
    requires LevelOf(op) == CMP_LEVEL
  {
    match op
    case Eq => Ne
    case Ne => Eq
    case Lt => Ge
    case Ge => Lt
    case Gt => Le
    case _ => Gt
  }

  lemma {:induction false} NegatedItems(l: Value, r: Value, f: (Value, Value) -> Value, g: (Value, Value) -> Value)
    requires forall a, b :: Negated(f(a, b)) == g(a, b)
    ensures Negated(Broadcast(l, r, f)) == Broadcast(l, r, g)
    decreases l, r
  {
    var v, w := Negated(Broadcast(l, r, f)), Broadcast(l, r, g);
    if l.Many? && r.Many? {
      if |l.items| == |r.items| {
        forall k | 0 <= k < |l.items| ensures v.items[k] == w.items[k] {
          NegatedItems(l.items[k], r.items[k], f, g);
        }
        assert v.items == w.items;
      }
    } else if l.Many? {
      forall k | 0 <= k < |l.items| ensures v.items[k] == w.items[k] {
        NegatedItems(l.items[k], r, f, g);
      }
      assert v.items == w.items;
    } else if r.Many? {
      forall k | 0 <= k < |r.items| ensures v.items[k] == w.items[k] {
        NegatedItems(l, r.items[k], f, g);
      }
      assert v.items == w.items;
    }
  }

  lemma NegatedCompared(lib: Lib, op: BinOp, a: Value, b: Value)
    requires LevelOf(op) == CMP_LEVEL
    ensures Negated(Compared(lib, op, a, b)) == Compared(lib, Opposite(op), a, b)
  {
  }

  /** The negation of a comparison is the opposite comparison, for all values, item by item
      in lists at any depth. */
  lemma NegatedComparison(lib: Lib, op: BinOp, l: Value, r: Value)
    requires LevelOf(op) == CMP_LEVEL
    ensures Negated(Binary(lib, op, l, r)) == Binary(lib, Opposite(op), l, r)
  {
    var other := Opposite(op);
    forall a, b ensures Negated(Compared(lib, op, a, b)) == Compared(lib, other, a, b) {
      NegatedCompared(lib, op, a, b);
    }
    NegatedItems(l, r, (a, b) => Compared(lib, op, a, b), (a, b) => Compared(lib, other, a, b));
  }

  /** The item of a value at a place: its own when it is a list, else the value itself. */
  function At(v: Value, k: nat): Value
    requires v.Many? ==> k < |v.items|
  {
    if v.Many? then v.items[k] else v
  }

  /** Two values that go together item by item: one is a list, and two lists are of one length. */
  predicate Paired(l: Value, r: Value, n: nat) {
    (l.Many? || r.Many?) && (l.Many? ==> |l.items| == n) && (r.Many? ==> |r.items| == n)
  }

  lemma ItemOf(l: Value, r: Value, f: (Value, Value) -> Value, n: nat, k: nat)
    requires Paired(l, r, n) && k < n
    ensures var v := Broadcast(l, r, f); v.Many? && |v.items| == n && v.items[k] == Broadcast(At(l, k), At(r, k), f)
  {
  }

  lemma ItemByItem(lib: Lib, op: BinOp, l: Value, r: Value, n: nat, k: nat)
    requires LevelOf(op) >= CMP_LEVEL && Paired(l, r, n) && k < n
    ensures var v := Binary(lib, op, l, r);
            v.Many? && |v.items| == n && v.items[k] == Binary(lib, op, At(l, k), At(r, k))
  {
    match op
    case Add => ItemOf(l, r, (a, b) => Computed(lib, Add, a, b), n, k);
    case Sub => ItemOf(l, r, (a, b) => Computed(lib, Sub, a, b), n, k);
    case Mul => ItemOf(l, r, (a, b) => Computed(lib, Mul, a, b), n, k);
    case Div => ItemOf(l, r, (a, b) => Computed(lib, Div, a, b), n, k);
    case _ => ItemOf(l, r, (a, b) => Compared(lib, op, a, b), n, k);
  }

  /** What BETWEEN says of one value, and what the two comparisons say. */
  datatype Bounds = Bounds(both: Value, ge: Value, le: Value)

  function BoundsOf(lib: Lib, x: Value, lo: Value, hi: Value): Bounds {
    Bounds(AllInRange(lib, x, lo, hi), Binary(lib, Ge, x, lo), Binary(lib, Le, x, hi))
  }

  /** One comparison fails and the other is open: BETWEEN is open, and an AND fails. */
  predicate HalfFails(b: Bounds) {
    (b.ge == Truth(false) && b.le.Blank?) || (b.ge.Blank? && b.le == Truth(false))
  }

  /** BETWEEN is open without a reason, and a comparison is open for a reason. */
  predicate HidesReason(b: Bounds) {
    b.both == Blank([]) && (Given(b.ge) != [] || Given(b.le) != [])
  }

  /** Both are answered or open at once, and BETWEEN gives no reason of its own. */
  predicate Bounded(b: Bounds) {
    && IsAnswer(b.both) && IsAnswer(b.ge) && IsAnswer(b.le)
    && (if b.ge.Truth? && b.le.Truth? then b.both == Truth(b.ge.b && b.le.b) else b.both.Blank?)
    && (Given(b.both) != [] ==> Given(b.ge) != [] || Given(b.le) != [])
  }

  lemma BetweenOfMissing(lib: Lib, x: Value, lo: Value, hi: Value)
    requires x.Blank? && !lo.Many? && !hi.Many?
    ensures BoundsOf(lib, x, lo, hi) == Bounds(x, Blank(x.reasons + Given(lo)), Blank(x.reasons + Given(hi)))
  {
  }

  lemma BetweenWithoutBound(lib: Lib, x: Value, lo: Value, hi: Value)
    requires !x.Blank? && !x.Many? && !lo.Many? && !hi.Many? && (lo.Blank? || hi.Blank?)
    ensures var b := BoundsOf(lib, x, lo, hi);
            && b.both == Blank(Given(lo) + Given(hi)) && IsAnswer(b.ge) && IsAnswer(b.le)
            && (lo.Blank? ==> b.ge == lo) && (hi.Blank? ==> b.le == hi)
  {
    Nothing(Given(lo));
    Nothing(Given(hi));
  }

  lemma BetweenOfKnown(lib: Lib, x: Value, lo: Value, hi: Value)
    requires !x.Blank? && !x.Many? && !lo.Many? && !lo.Blank? && !hi.Many? && !hi.Blank?
    ensures Bounded(BoundsOf(lib, x, lo, hi))
  {
    var ge, le := Compared(lib, Ge, x, lo), Compared(lib, Le, x, hi);
    assert BoundsOf(lib, x, lo, hi) == Bounds(InRange(lib, x, lo, hi), ge, le);
  }

  lemma BetweenOfItem(lib: Lib, x: Value, lo: Value, hi: Value)
    requires !x.Many? && !lo.Many? && !hi.Many?
    ensures Bounded(BoundsOf(lib, x, lo, hi))
  {
    if x.Blank? {
      BetweenOfMissing(lib, x, lo, hi);
    } else if lo.Blank? || hi.Blank? {
      BetweenWithoutBound(lib, x, lo, hi);
    } else {
      BetweenOfKnown(lib, x, lo, hi);
    }
  }

  /** An item is known to lie outside; one fails by halves; one is open for a reason that
      BETWEEN gives; one is open for a reason that BETWEEN hides. */
  predicate SomeOutside(bs: seq<Bounds>) {
    exists k :: 0 <= k < |bs| && bs[k].both == Truth(false)
  }

  predicate SomeHalfFails(bs: seq<Bounds>) {
    exists k :: 0 <= k < |bs| && HalfFails(bs[k])
  }

  predicate SomeOpen(bs: seq<Bounds>) {
    exists k :: 0 <= k < |bs| && Given(bs[k].both) != []
  }

  predicate SomeHidden(bs: seq<Bounds>) {
    exists k :: 0 <= k < |bs| && HidesReason(bs[k])
  }

  /** When BETWEEN and the two comparisons agree on a list. */
  predicate ListsAgree(bs: seq<Bounds>) {
    SomeOutside(bs) || (!SomeHalfFails(bs) && (SomeOpen(bs) || !SomeHidden(bs)))
  }

  predicate AreBounds(bs: seq<Bounds>, both: seq<Value>, ge: seq<Value>, le: seq<Value>) {
    && |both| == |ge| == |le| == |bs|
    && forall k :: 0 <= k < |bs| ==> Bounded(bs[k]) && bs[k] == Bounds(both[k], ge[k], le[k])
  }

  /** An item that does not keep a list from passing. */
  predicate Passes(v: Value) {
    v == Truth(true) || v == Blank([])
  }

  lemma OneItem(b: Bounds)
    requires Bounded(b)
    ensures b.ge == Truth(false) || b.le == Truth(false) <==> b.both == Truth(false) || HalfFails(b)
    ensures b.both != Truth(false) ==> (Passes(b.both) <==> Given(b.both) == [])
    ensures b.both != Truth(false) && !HalfFails(b) ==>
              (Passes(b.ge) && Passes(b.le) <==> Passes(b.both) && !HidesReason(b))
  {
  }

  lemma SomeFail(bs: seq<Bounds>, both: seq<Value>, ge: seq<Value>, le: seq<Value>)
    requires bs != [] && AreBounds(bs, both, ge, le)
    ensures VerdictOf(Many(both)).Fail? <==> SomeOutside(bs)
    ensures VerdictOf(Many(ge)).Fail? || VerdictOf(Many(le)).Fail? <==> SomeOutside(bs) || SomeHalfFails(bs)
  {
    StatusOfList(both);
    StatusOfList(ge);
    StatusOfList(le);
    if k :| 0 <= k < |bs| && (ge[k] == Truth(false) || le[k] == Truth(false)) {
      OneItem(bs[k]);
    }
    if k :| 0 <= k < |bs| && (bs[k].both == Truth(false) || HalfFails(bs[k])) {
      OneItem(bs[k]);
      assert ge[k] == Truth(false) || le[k] == Truth(false);
    }
  }

  lemma AllPass(bs: seq<Bounds>, both: seq<Value>, ge: seq<Value>, le: seq<Value>)
    requires bs != [] && AreBounds(bs, both, ge, le) && !SomeOutside(bs) && !SomeHalfFails(bs)
    ensures VerdictOf(Many(both)).Pass? <==> !SomeOpen(bs)
    ensures VerdictOf(Many(ge)).Pass? && VerdictOf(Many(le)).Pass? <==> !SomeOpen(bs) && !SomeHidden(bs)
  {
    StatusOfList(both);
    StatusOfList(ge);
    StatusOfList(le);
    forall k | 0 <= k < |bs|
      ensures Passes(both[k]) <==> Given(bs[k].both) == []
      ensures Passes(ge[k]) && Passes(le[k]) <==> Given(bs[k].both) == [] && !HidesReason(bs[k])
    {
      OneItem(bs[k]);
      assert !(bs[k].both == Truth(false)) && !HalfFails(bs[k]);
    }
  }

  lemma BothOfLists(bs: seq<Bounds>, both: seq<Value>, ge: seq<Value>, le: seq<Value>)
    requires bs != [] && AreBounds(bs, both, ge, le)
    ensures SameStatus(VerdictOf(Many(both)), VerdictOf(Logic(true, Many(ge), Many(le)))) <==> ListsAgree(bs)
  {
    SomeFail(bs, both, ge, le);
    LogicTable(true, Many(ge), Many(le));
    StatusOfList(both);
    if !SomeOutside(bs) && !SomeHalfFails(bs) {
      AllPass(bs, both, ge, le);
    }
  }

  function BoundsOfAll(lib: Lib, xs: seq<Value>, lo: Value, hi: Value): seq<Bounds> {
    seq(|xs|, k requires 0 <= k < |xs| => BoundsOf(lib, xs[k], lo, hi))
  }

  lemma BetweenItems(lib: Lib, xs: seq<Value>, lo: Value, hi: Value) returns (ge: seq<Value>, le: seq<Value>)
    requires !lo.Many? && !hi.Many? && forall k :: 0 <= k < |xs| ==> !xs[k].Many?
    ensures Binary(lib, Ge, Many(xs), lo) == Many(ge) && Binary(lib, Le, Many(xs), hi) == Many(le)
    ensures AreBounds(BoundsOfAll(lib, xs, lo, hi), AllInRange(lib, Many(xs), lo, hi).items, ge, le)
  {
    var l, r := Binary(lib, Ge, Many(xs), lo), Binary(lib, Le, Many(xs), hi);
    forall k | 0 <= k < |xs|
      ensures Bounded(BoundsOf(lib, xs[k], lo, hi))
      ensures l.items[k] == Binary(lib, Ge, xs[k], lo) && r.items[k] == Binary(lib, Le, xs[k], hi)
    {
      ItemByItem(lib, Ge, Many(xs), lo, |xs|, k);
      ItemByItem(lib, Le, Many(xs), hi, |xs|, k);
      BetweenOfItem(lib, xs[k], lo, hi);
    }
    ge, le := l.items, r.items;
  }

  lemma BetweenOfList(lib: Lib, xs: seq<Value>, lo: Value, hi: Value)
    requires !lo.Many? && !hi.Many? && forall k :: 0 <= k < |xs| ==> !xs[k].Many?
    ensures SameStatus(VerdictOf(AllInRange(lib, Many(xs), lo, hi)),
                       VerdictOf(Logic(true, Binary(lib, Ge, Many(xs), lo), Binary(lib, Le, Many(xs), hi))))
            <==> ListsAgree(BoundsOfAll(lib, xs, lo, hi))
  {
    if xs != [] {
      var ge, le := BetweenItems(lib, xs, lo, hi);
      BothOfLists(BoundsOfAll(lib, xs, lo, hi), AllInRange(lib, Many(xs), lo, hi).items, ge, le);
    }
  }

  /** When BETWEEN comes to the AND of its two comparisons, for bounds that are no lists: of
      a single value unless one comparison fails while the other is open, and of a list
      under the condition above. */
  lemma BetweenIsBothBounds(lib: Lib, x: Value, lo: Value, hi: Value)
    requires !lo.Many? && !hi.Many? && (x.Many? ==> forall k :: 0 <= k < |x.items| ==> !x.items[k].Many?)
    ensures SameStatus(VerdictOf(AllInRange(lib, x, lo, hi)),
                       VerdictOf(Logic(true, Binary(lib, Ge, x, lo), Binary(lib, Le, x, hi))))
            <==> if x.Many? then ListsAgree(BoundsOfAll(lib, x.items, lo, hi)) else !HalfFails(BoundsOf(lib, x, lo, hi))
  {
    if x.Many? {
      BetweenOfList(lib, x.items, lo, hi);
    } else {
      BetweenOfItem(lib, x, lo, hi);
      LogicTable(true, Binary(lib, Ge, x, lo), Binary(lib, Le, x, hi));
    }
  }

  // -------------------------------------------------------------------- arithmetic

  /** Subtraction undoes addition and division multiplication; nothing is divided by zero. */
  lemma ArithmeticInverts(lib: Lib, x: real, y: real)
    ensures Computed(lib, Sub, Computed(lib, Add, Amount(x), Amount(y)), Amount(y)) == Amount(x)
    ensures Computed(lib, Add, Amount(x), Amount(y)) == Computed(lib, Add, Amount(y), Amount(x))
    ensures y != 0.0 ==> Computed(lib, Div, Computed(lib, Mul, Amount(x), Amount(y)), Amount(y)) == Amount(x)
    ensures Computed(lib, Div, Amount(x), Amount(0.0)).Blank?
    ensures Computed(lib, Mul, Amount(x), Amount(1.0)) == Amount(x)
  {
  }

  // --------------------------------------------------------------------- aggregates

  lemma {:induction false} TotalOfBoth(a: seq<real>, b: seq<real>)
    ensures Total(a + b) == Total(a) + Total(b)
    decreases |b|
  {
    if b == [] {
      Nothing(a);
    } else {
      var init := b[..|b| - 1];
      InitLast(b);
      Rejoin(a, init, [b[|b| - 1]]);
      TotalSnoc(a + init, b[|b| - 1]);
      TotalOfBoth(a, init);
    }
  }

  function Times(m: real, n: nat): real {
    m * n as real
  }

  lemma {:induction false} TotalAtLeast(xs: seq<real>, m: real)
    requires forall k :: 0 <= k < |xs| ==> m <= xs[k]
    ensures Times(m, |xs|) <= Total(xs)
    decreases |xs|
  {
    if xs != [] {
      TotalAtLeast(xs[..|xs| - 1], m);
    }
  }

  lemma {:induction false} TotalAtMost(xs: seq<real>, m: real)
    requires forall k :: 0 <= k < |xs| ==> xs[k] <= m
    ensures Total(xs) <= Times(m, |xs|)
    decreases |xs|
  {
    if xs != [] {
      TotalAtMost(xs[..|xs| - 1], m);
    }
  }

  lemma Share(t: real, n: nat, lo: real, hi: real)
    requires n > 0 && Times(lo, n) <= t <= Times(hi, n)
    ensures lo <= t / n as real <= hi
  {
  }

  lemma TotalIsBetween(xs: seq<real>)
    requires xs != []
    ensures Times(Least(xs), |xs|) <= Total(xs) <= Times(Greatest(xs), |xs|)
  {
    LeastIsLeast(xs);
    GreatestIsGreatest(xs);
    TotalAtLeast(xs, Least(xs));
    TotalAtMost(xs, Greatest(xs));
  }

  /** The average lies between the least and the greatest amount. */
  lemma AverageIsBetween(xs: seq<real>)
    requires xs != []
    ensures Least(xs) <= Folded(AverageOf, xs) <= Greatest(xs)
  {
    TotalIsBetween(xs);
    Share(Total(xs), |xs|, Least(xs), Greatest(xs));
  }

  /** A list of amounts, and what is computed with it. */
  function AmountList(xs: seq<real>): Value {
    Many(seq(|xs|, k requires 0 <= k < |xs| => Amount(xs[k])))
  }

  lemma {:induction false} FlatAmounts(lib: Lib, agg: Agg, xs: seq<real>)
    ensures var items := AmountList(xs).items;
            Flat(items) == items && Amounts(items) == xs && Complaints(lib, agg, items) == [] && Known(items) == |xs|
  {
    if xs != [] {
      var items := AmountList(xs).items;
      FlatAmounts(lib, agg, xs[1..]);
      assert items[1..] == AmountList(xs[1..]).items;
      assert xs == [xs[0]] + xs[1..] && items == [items[0]] + items[1..];
    }
  }

  lemma AggregateOfList(lib: Lib, agg: Agg, xs: seq<real>)
    ensures Flat([AmountList(xs)]) == AmountList(xs).items
    ensures Aggregated(lib, agg, [AmountList(xs)]) ==
            if xs != [] then Amount(Folded(agg, xs)) else if agg == SumOf then Amount(0.0) else Blank([NoValues(agg)])
  {
    FlatAmounts(lib, agg, xs);
    var one := [AmountList(xs)];
    assert one[1..] == [];
    Nothing(Flat(AmountList(xs).items));
    assert Flat(one) == Flat(one[0].items) + Flat([]);
  }

  lemma SumOfList(lib: Lib, xs: seq<real>)
    ensures Aggregated(lib, SumOf, [AmountList(xs)]) == Amount(Total(xs))
  {
    AggregateOfList(lib, SumOf, xs);
  }

  function Added(xs: seq<real>, ys: seq<real>): seq<real>
    requires |xs| == |ys|
  {
    seq(|xs|, k requires 0 <= k < |xs| => xs[k] + ys[k])
  }

  lemma {:induction false} TotalOfAdded(xs: seq<real>, ys: seq<real>)
    requires |xs| == |ys|
    ensures Total(Added(xs, ys)) == Total(xs) + Total(ys)
    decreases |xs|
  {
    if xs != [] {
      var n := |xs| - 1;
      TotalOfAdded(xs[..n], ys[..n]);
      assert Added(xs, ys)[..n] == Added(xs[..n], ys[..n]);
    }
  }

  lemma AddedLists(lib: Lib, xs: seq<real>, ys: seq<real>)
    requires |xs| == |ys|
    ensures Binary(lib, Add, AmountList(xs), AmountList(ys)) == AmountList(Added(xs, ys))
  {
    var items := Binary(lib, Add, AmountList(xs), AmountList(ys)).items;
    forall k | 0 <= k < |xs| ensures items[k] == Amount(xs[k] + ys[k]) {
      ItemByItem(lib, Add, AmountList(xs), AmountList(ys), |xs|, k);
    }
    assert items == AmountList(Added(xs, ys)).items;
  }

  /** Adding two lists up and then summing is summing both and then adding. */
  lemma SumOfSums(lib: Lib, xs: seq<real>, ys: seq<real>)
    requires |xs| == |ys|
    ensures Aggregated(lib, SumOf, [Binary(lib, Add, AmountList(xs), AmountList(ys))]) ==
            Computed(lib, Add, Aggregated(lib, SumOf, [AmountList(xs)]), Aggregated(lib, SumOf, [AmountList(ys)]))
  {
    AddedLists(lib, xs, ys);
    SumOfList(lib, Added(xs, ys));
    SumOfList(lib, xs);
    SumOfList(lib, ys);
    TotalOfAdded(xs, ys);
  }

  function Product(x: real, y: real): real {
    x * y
  }

  function Scaled(m: real, xs: seq<real>): seq<real> {
    seq(|xs|, k requires 0 <= k < |xs| => Product(m, xs[k]))
  }

  lemma ProductOfSum(m: real, x: real, y: real)
    ensures Product(m, x + y) == Product(m, x) + Product(m, y)
  {
  }

  lemma {:induction false} TotalOfScaled(m: real, xs: seq<real>)
    ensures Total(Scaled(m, xs)) == Product(m, Total(xs))
    decreases |xs|
  {
    if xs != [] {
      var n := |xs| - 1;
      TotalOfScaled(m, xs[..n]);
      assert Scaled(m, xs)[..n] == Scaled(m, xs[..n]);
      ProductOfSum(m, Total(xs[..n]), xs[n]);
    }
  }

  lemma ScaledList(lib: Lib, m: real, xs: seq<real>)
    ensures Binary(lib, Mul, Amount(m), AmountList(xs)) == AmountList(Scaled(m, xs))
  {
    var items := Binary(lib, Mul, Amount(m), AmountList(xs)).items;
    forall k | 0 <= k < |xs| ensures items[k] == Amount(Product(m, xs[k])) {
      ItemByItem(lib, Mul, Amount(m), AmountList(xs), |xs|, k);
    }
    assert items == AmountList(Scaled(m, xs)).items;
  }

  /** A factor may be taken out of a sum. */
  lemma SumOfMultiples(lib: Lib, m: real, xs: seq<real>)
    ensures Aggregated(lib, SumOf, [Binary(lib, Mul, Amount(m), AmountList(xs))]) ==
            Computed(lib, Mul, Amount(m), Aggregated(lib, SumOf, [AmountList(xs)]))
  {
    ScaledList(lib, m, xs);
    SumOfList(lib, Scaled(m, xs));
    SumOfList(lib, xs);
    TotalOfScaled(m, xs);
  }

  lemma CountOfList(lib: Lib, xs: seq<real>)
    ensures Counted([AmountList(xs)]) == Amount(|xs| as real)
  {
    AggregateOfList(lib, SumOf, xs);
    FlatAmounts(lib, SumOf, xs);
  }

  lemma Undivided(t: real, n: real)
    requires n != 0.0
    ensures t / n * n == t
  {
  }

  lemma ShareTimes(lib: Lib, t: real, n: real)
    requires n != 0.0
    ensures Computed(lib, Mul, Amount(t / n), Amount(n)) == Amount(t)
  {
    Undivided(t, n);
  }

  lemma AverageOfList(lib: Lib, xs: seq<real>)
    requires xs != []
    ensures Aggregated(lib, AverageOf, [AmountList(xs)]) == Amount(Total(xs) / |xs| as real)
    ensures Aggregated(lib, SumOf, [AmountList(xs)]) == Amount(Total(xs))
  {
    AggregateOfList(lib, AverageOf, xs);
    AggregateOfList(lib, SumOf, xs);
  }

  /** The average times the count is the sum. */
  lemma AverageTimesCount(lib: Lib, xs: seq<real>)
    requires xs != []
    ensures var list := [AmountList(xs)];
            Computed(lib, Mul, Aggregated(lib, AverageOf, list), Counted(list)) == Aggregated(lib, SumOf, list)
  {
    AverageOfList(lib, xs);
    CountOfList(lib, xs);
    ShareTimes(lib, Total(xs), |xs| as real);
  }

  function Negatives(xs: seq<real>): seq<real> {
    seq(|xs|, k requires 0 <= k < |xs| => 0.0 - xs[k])
  }

  lemma NegatedList(lib: Lib, xs: seq<real>)
    ensures Binary(lib, Sub, Amount(0.0), AmountList(xs)) == AmountList(Negatives(xs))
  {
    var items := Binary(lib, Sub, Amount(0.0), AmountList(xs)).items;
    forall k | 0 <= k < |xs| ensures items[k] == Amount(0.0 - xs[k]) {
      ItemByItem(lib, Sub, Amount(0.0), AmountList(xs), |xs|, k);
    }
    assert items == AmountList(Negatives(xs)).items;
  }

  lemma LeastOfNegatives(xs: seq<real>)
    requires xs != []
    ensures Least(Negatives(xs)) == 0.0 - Greatest(xs)
  {
    var ys := Negatives(xs);
    LeastIsLeast(ys);
    GreatestIsGreatest(xs);
    var i :| 0 <= i < |ys| && ys[i] == Least(ys);
    var j :| 0 <= j < |xs| && xs[j] == Greatest(xs);
    assert ys[j] == 0.0 - xs[j] && ys[i] == 0.0 - xs[i];
  }

  lemma LeastOfList(lib: Lib, xs: seq<real>)
    requires xs != []
    ensures Aggregated(lib, MinOf, [AmountList(xs)]) == Amount(Least(xs))
    ensures Aggregated(lib, MaxOf, [AmountList(xs)]) == Amount(Greatest(xs))
  {
    AggregateOfList(lib, MinOf, xs);
    AggregateOfList(lib, MaxOf, xs);
  }

  /** The least of the negated amounts is the negated greatest one. */
  lemma LeastOfNegated(lib: Lib, xs: seq<real>)
    requires xs != []
    ensures Aggregated(lib, MinOf, [Binary(lib, Sub, Amount(0.0), AmountList(xs))]) ==
            Computed(lib, Sub, Amount(0.0), Aggregated(lib, MaxOf, [AmountList(xs)]))
  {
    NegatedList(lib, xs);
    LeastOfList(lib, Negatives(xs));
    LeastOfList(lib, xs);
    LeastOfNegatives(xs);
  }

  lemma {:induction false} FlatOfBoth(a: seq<Value>, b: seq<Value>)
    ensures Flat(a + b) == Flat(a) + Flat(b)
    decreases |a|
  {
    if a == [] {
      Nothing(b);
      Nothing(Flat(b));
    } else {
      var head := if a[0].Many? then Flat(a[0].items) else [a[0]];
      FlatOfBoth(a[1..], b);
      HeadOfBoth(a, b);
      Rejoin(head, Flat(a[1..]), Flat(b));
    }
  }

  lemma HeadOfBoth<T>(a: seq<T>, b: seq<T>)
    requires a != []
    ensures (a + b)[0] == a[0] && (a + b)[1..] == a[1..] + b
  {
  }

  /** It makes no difference whether values are given one by one or as a list. */
  lemma ListsAreOpened(items: seq<Value>, rest: seq<Value>)
    ensures Flat([Many(items)] + rest) == Flat(items + rest)
  {
    Cons(Many(items), rest);
    FlatOfBoth(items, rest);
  }

  /** EXISTS: there is an item that is known. */
  lemma {:induction false} SomethingIsKnown(items: seq<Value>)
    ensures Known(items) > 0 <==> exists k :: 0 <= k < |items| && !items[k].Blank?
    ensures Known(items) <= |items|
  {
    if items != [] {
      SomethingIsKnown(items[1..]);
      if Known(items[1..]) > 0 {
        var k :| 0 <= k < |items[1..]| && !items[1..][k].Blank?;
        assert !items[k + 1].Blank?;
      }
      if exists k :: 0 < k < |items| && !items[k].Blank? {
        var k :| 0 < k < |items| && !items[k].Blank?;
        assert !items[1..][k - 1].Blank?;
      }
    }
  }

  // -------------------------------------------------------------------------- choice

  /** (c AND x) OR (NOT c AND y) */
  function Mixed(c: Value, x: Value, y: Value): Value {
    Logic(false, Logic(true, c, x), Logic(true, Negated(c), y))
  }

  lemma DecidedChoice(c: bool, x: Value, y: Value)
    requires IsAnswer(x) && IsAnswer(y)
    ensures SameStatus(VerdictOf(if c then x else y), VerdictOf(Mixed(Truth(c), x, y)))
  {
  }

  lemma OpenChoice(reasons: seq<Reason>, x: Value, y: Value)
    requires IsAnswer(x) && IsAnswer(y)
    ensures VerdictOf(Mixed(Blank(reasons), x, y)).Unclear? <==> !(x == Truth(false) && y == Truth(false))
  {
  }

  /** IF(c, x, y) has the outcome of (c AND x) OR (NOT c AND y), except when the condition is
      open and both alternatives fail: then only the second is decided. */
  lemma ChoiceIsLogic(c: Value, x: Value, y: Value)
    requires IsAnswer(c) && IsAnswer(x) && IsAnswer(y)
    ensures SameStatus(VerdictOf(Chosen([c, x, y]).value), VerdictOf(Mixed(c, x, y)))
            <==> !(c.Blank? && x == Truth(false) && y == Truth(false))
  {
    if c.Truth? {
      DecidedChoice(c.b, x, y);
    } else {
      OpenChoice(c.reasons, x, y);
    }
  }

  /** IF(c, x) has the outcome of NOT c OR x, except when the condition is open and x holds. */
  lemma ImplicationIsLogic(c: Value, x: Value)
    requires IsAnswer(c) && IsAnswer(x)
    ensures SameStatus(VerdictOf(Chosen([c, x]).value), VerdictOf(Logic(false, Negated(c), x)))
            <==> !(c.Blank? && x == Truth(true))
  {
  }
}
