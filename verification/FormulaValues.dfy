/**
 The values of the check formulas and what is computed with them
 (internal/checkexpr/eval.go): three-valued verdicts, operators that work item by item on
 lists, and the functions. The notes and document references a value carries are left
 out; the reasons a missing value gives are kept, because the aggregates, the searches and
 the verdicts decide on them.
 */
module FormulaValues {
  import opened Util
  import opened FormulaSyntax

  /** Why a value is missing: a wording that depends on the data, or a fixed one. */
  datatype Reason =
    | Told(text: string)
    | NoDocuments | LengthsDiffer | ZeroDivisor | NoValues(agg: Agg)
    | NeedsNumber(fn: Fn) | NeedsDateAndNumber | NeedsUnit | TooFewToCompare

  datatype Value =
    | Blank(reasons: seq<Reason>)   // unknown
    | Amount(n: real)
    | Text(s: string)
    | Day(day: int, s: string)
    | Truth(b: bool)
    | Many(items: seq<Value>)

  datatype Verdict = Pass | Fail | Unclear(reasons: seq<Reason>) | Wrong

  /** What is worded with data in it. */
  datatype Remark =
    | Lacks(name: string, field: string, title: string)
    | Unreadable(name: string, field: string, title: string, text: string)
    | NoDocument(name: string)
    | Incomparable(a: Value, b: Value)
    | NoNumbers(op: BinOp, a: Value, b: Value)
    | NoNumber(agg: Agg, v: Value)

  datatype Unit = Days | Months | Years

  datatype Agg = SumOf | MinOf | MaxOf | AverageOf

  datatype Fn = Aggregate(agg: Agg) | Count | Exists | Abs | Round | Between | Same | Match | Contains
              | If | AndAll | OrAll | DateAdd | Today

  /** The libraries: reading numbers, dates and yes/no words, the keys by which texts are
      compared, whether two texts fit in a mode of comparison, calendar arithmetic, rounding,
      the day, the names of the functions, and the wordings. */
  datatype Lib = Lib(
    number: string -> Option<real>, date: string -> Option<int>, truth: string -> Option<bool>,
    key: Value -> string, fits: (Value, Value, string) -> bool,
    unit: string -> Option<Unit>, later: (int, int, Unit) -> int, round: (real, real) -> real,
    today: int, functions: string -> Option<Fn>, say: Remark -> string)

  function Says(lib: Lib, r: Remark): Value {
    Blank([Told(lib.say(r))])
  }

  /** Every element once, in the order in which it comes first. */
  function Distinct<T(==, !new)>(xs: seq<T>): (ys: seq<T>)
    ensures forall x :: x in xs <==> x in ys
    ensures forall j, k :: 0 <= j < k < |ys| ==> ys[j] != ys[k]
    ensures ys == [] <==> xs == []
    decreases |xs|
  {
    if xs == [] then [] else
    var init, x := xs[..|xs| - 1], xs[|xs| - 1];
    assert xs == init + [x];
    var ys := Distinct(init);
    if x in ys then ys else ys + [x]
  }

  // ---------------------------------------------------------------------- verdicts

  predicate Has(items: seq<Value>, x: Verdict)
    decreases items, 0
  {
    exists k :: 0 <= k < |items| && VerdictOf(items[k]) == x
  }

  /** A list fails with one failing item, is unclear with one that says what is missing, and
      passes otherwise; an item that is no yes or no spoils it; an empty list is unclear. */
  function VerdictOf(v: Value): Verdict
    decreases v, 1
  {
    match v
    case Truth(b) => if b then Pass else Fail
    case Blank(reasons) => Unclear(Distinct(reasons))
    case Many(items) =>
      if items == [] then Unclear([NoDocuments])
      else if Has(items, Wrong) then Wrong
      else if Has(items, Fail) then Fail
      else if MissingIn(items) != [] then Unclear(Distinct(MissingIn(items)))
      else Pass
    case _ => Wrong
  }

  /** What a verdict says is missing. */
  function Missing(v: Verdict): seq<Reason> {
    if v.Unclear? then v.reasons else []
  }

  function MissingIn(items: seq<Value>): seq<Reason>
    decreases items, 0
  {
    if items == [] then [] else Missing(VerdictOf(items[0])) + MissingIn(items[1..])
  }

  predicate Asks(v: Verdict) {
    Missing(v) != []
  }

  /** The text a value carries, if any. */
  function TextOf(v: Value): string {
    if v.Text? || v.Day? then v.s else ""
  }

  /** The reasons a value gives. */
  function Given(v: Value): seq<Reason> {
    if v.Blank? then v.reasons else []
  }

  // --------------------------------------------------------------------- operators

  function Absolute(x: real): real {
    if x < 0.0 then -x else x
  }

  function Sign(x: real): int {
    if Absolute(x) < 0.005 then 0 else if x < 0.0 then -1 else 1
  }

  predicate Holds(op: BinOp, c: int) {
    match op
    case Eq => c == 0
    case Ne => c != 0
    case Lt => c < 0
    case Le => c <= 0
    case Gt => c > 0
    case Ge => c >= 0
    case _ => false
  }

  /** Two known values compared. Amounts that differ by less than half a cent are equal; two
      different yes/no values compare as greater, either way round. */
  function Compared(lib: Lib, op: BinOp, a: Value, b: Value): Value {
    if a.Amount? && b.Amount? then Truth(Holds(op, Sign(a.n - b.n)))
    else if a.Day? && b.Day? then Truth(Holds(op, a.day - b.day))
    else if a.Truth? && b.Truth? then Truth(Holds(op, if a.b != b.b then 1 else 0))
    else if op != Eq && op != Ne then Says(lib, Incomparable(a, b))
    else Truth(Holds(op, if lib.key(a) == lib.key(b) then 0 else 1))
  }

  function Computed(lib: Lib, op: BinOp, a: Value, b: Value): Value {
    if !a.Amount? || !b.Amount? then Says(lib, NoNumbers(op, a, b))
    else match op
      case Add => Amount(a.n + b.n)
      case Sub => Amount(a.n - b.n)
      case Mul => Amount(a.n * b.n)
      case _ => if b.n == 0.0 then Blank([ZeroDivisor]) else Amount(a.n / b.n)
  }

  /** Item by item when one side is a list; two lists of the same length go pairwise. */
  function Broadcast(l: Value, r: Value, f: (Value, Value) -> Value): Value
    decreases l, r
  {
    if l.Many? && r.Many? then
      if |l.items| == |r.items| then
        Many(seq(|l.items|, k requires 0 <= k < |l.items| => Broadcast(l.items[k], r.items[k], f)))
      else Blank([LengthsDiffer])
    else if l.Many? then Many(seq(|l.items|, k requires 0 <= k < |l.items| => Broadcast(l.items[k], r, f)))
    else if r.Many? then Many(seq(|r.items|, k requires 0 <= k < |r.items| => Broadcast(l, r.items[k], f)))
    else if l.Blank? || r.Blank? then Blank(Given(l) + Given(r))
    else f(l, r)
  }

  function Negated(v: Value): Value {
    match v
    case Truth(b) => Truth(!b)
    case Many(items) => Many(seq(|items|, k requires 0 <= k < |items| => Negated(items[k])))
    case _ => v
  }

  predicate Is(v: Verdict, b: bool) {
    v == if b then Pass else Fail
  }

  /** Three-valued logic: `no and unknown` is no, `yes or unknown` is yes. */
  function Logic(conj: bool, l: Value, r: Value): Value {
    Combined(conj, VerdictOf(l), VerdictOf(r))
  }

  function Combined(conj: bool, lv: Verdict, rv: Verdict): Value {
    if Is(lv, !conj) || Is(rv, !conj) then Truth(!conj)
    else if Is(lv, conj) && Is(rv, conj) then Truth(conj)
    else Blank(Missing(lv) + Missing(rv))
  }

  // --------------------------------------------------------------------- functions

  /** Lists among the arguments are opened. */
  function Flat(args: seq<Value>): seq<Value> {
    if args == [] then []
    else if args[0].Many? then Flat(args[0].items) + Flat(args[1..])
    else [args[0]] + Flat(args[1..])
  }

  /** What keeps an aggregate from being computed: the reasons of the missing items, and the
      items that are no numbers. */
  function Complaint(lib: Lib, agg: Agg, v: Value): seq<Reason> {
    if v.Amount? then [] else if v.Blank? then v.reasons else [Told(lib.say(NoNumber(agg, v)))]
  }

  function Complaints(lib: Lib, agg: Agg, items: seq<Value>): seq<Reason> {
    if items == [] then [] else Complaint(lib, agg, items[0]) + Complaints(lib, agg, items[1..])
  }

  function Amounts(items: seq<Value>): seq<real> {
    if items == [] then [] else (if items[0].Amount? then [items[0].n] else []) + Amounts(items[1..])
  }

  function Total(xs: seq<real>): real {
    if xs == [] then 0.0 else Total(xs[..|xs| - 1]) + xs[|xs| - 1]
  }

  function Least(xs: seq<real>): real
    requires xs != []
  {
    if |xs| == 1 then xs[0] else
    var m := Least(xs[1..]);
    if xs[0] < m then xs[0] else m
  }

  function Greatest(xs: seq<real>): real
    requires xs != []
  {
    if |xs| == 1 then xs[0] else
    var m := Greatest(xs[1..]);
    if xs[0] > m then xs[0] else m
  }

  function Folded(agg: Agg, xs: seq<real>): real
    requires xs != []
  {
    match agg
    case SumOf => Total(xs)
    case MinOf => Least(xs)
    case MaxOf => Greatest(xs)
    case AverageOf => Total(xs) / |xs| as real
  }

  function Aggregated(lib: Lib, agg: Agg, args: seq<Value>): Value {
    var items := Flat(args);
    if Complaints(lib, agg, items) != [] then Blank(Complaints(lib, agg, items))
    else if Amounts(items) == [] then if agg == SumOf then Amount(0.0) else Blank([NoValues(agg)])
    else Amount(Folded(agg, Amounts(items)))
  }

  function Known(items: seq<Value>): nat {
    if items == [] then 0 else (if items[0].Blank? then 0 else 1) + Known(items[1..])
  }

  function Counted(args: seq<Value>): Value {
    Amount(Known(Flat(args)) as real)
  }

  /** One value against two bounds. */
  function InRange(lib: Lib, x: Value, lo: Value, hi: Value): Value {
    if lo.Blank? || hi.Blank? then Blank(Given(lo) + Given(hi)) else
    var ge, le := Compared(lib, Ge, x, lo), Compared(lib, Le, x, hi);
    if !ge.Truth? || !le.Truth? then Blank(Given(ge) + Given(le)) else Truth(ge.b && le.b)
  }

  function AllInRange(lib: Lib, x: Value, lo: Value, hi: Value): Value
    decreases x
  {
    if x.Many? then Many(seq(|x.items|, k requires 0 <= k < |x.items| => AllInRange(lib, x.items[k], lo, hi)))
    else if x.Blank? then x
    else InRange(lib, x, lo, hi)
  }

  function AddedTo(lib: Lib, x: Value, n: Value, u: Value): Value
    decreases x
  {
    if x.Many? then Many(seq(|x.items|, k requires 0 <= k < |x.items| => AddedTo(lib, x.items[k], n, u)))
    else if x.Blank? || n.Blank? then Blank(Given(x) + Given(n))
    else if !x.Day? || !n.Amount? then Blank([NeedsDateAndNumber])
    else match lib.unit(TextOf(u))
      case Some(unit) => Day(lib.later(x.day, Truncated(n.n), unit), "")
      case None => Blank([NeedsUnit])
  }

  function FoldLogic(conj: bool, v: Value, rest: seq<Value>): Value
    decreases |rest|
  {
    if rest == [] then v else FoldLogic(conj, Logic(conj, v, rest[0]), rest[1..])
  }

  function Chosen(args: seq<Value>): Option<Value>
    requires args != []
  {
    match VerdictOf(args[0])
    case Pass => if |args| > 1 then Some(args[1]) else None
    case Fail => Some(if |args| > 2 then args[2] else Truth(true))
    case Unclear(reasons) => Some(Blank(reasons))
    case Wrong => Some(Blank([]))
  }

  function AnyKnown(items: seq<Value>): Value {
    Truth(Known(items) > 0)
  }

  function Rounded(lib: Lib, args: seq<Value>): Value
    requires args != []
  {
    if !args[0].Amount? then Blank([NeedsNumber(Round)])
    else Amount(lib.round(args[0].n, if |args| > 1 && args[1].Amount? then args[1].n else 0.0))
  }

  // ------------------------------------------------------------------ SAME and MATCH

  /** The reasons of all the items that are missing. */
  function GivenIn(items: seq<Value>): seq<Reason> {
    if items == [] then [] else Given(items[0]) + GivenIn(items[1..])
  }

  /** The keys by which the known items are compared. */
  function Keys(lib: Lib, items: seq<Value>): seq<string> {
    if items == [] then [] else (if items[0].Blank? then [] else [lib.key(items[0])]) + Keys(lib, items[1..])
  }

  /** SAME: the reasons are counted as if they were the missing items. */
  function Sameness(lib: Lib, items: seq<Value>): Value {
    if |items| - |GivenIn(items)| < 2 then Blank(GivenIn(items) + [TooFewToCompare])
    else Truth(|Distinct(Keys(lib, items))| == 1)
  }

  predicate Fit(lib: Lib, x: Value, y: Value, mode: string) {
    !x.Blank? && !y.Blank? && lib.fits(x, y, mode)
  }

  predicate Found(lib: Lib, xs: seq<Value>, ys: seq<Value>, mode: string) {
    exists i, j :: 0 <= i < |xs| && 0 <= j < |ys| && Fit(lib, xs[i], ys[j], mode)
  }

  function RowReasons(x: Value, ys: seq<Value>): seq<Reason> {
    if ys == [] then [] else (Given(x) + Given(ys[0])) + RowReasons(x, ys[1..])
  }

  function PairReasons(xs: seq<Value>, ys: seq<Value>): seq<Reason> {
    if xs == [] then [] else RowReasons(xs[0], ys) + PairReasons(xs[1..], ys)
  }

  /** MATCH and CONTAINS: the reasons of all pairs are counted against the number of pairs. */
  function Matching(lib: Lib, xs: seq<Value>, ys: seq<Value>, mode: string): Value {
    var missing := PairReasons(xs, ys);
    if Found(lib, xs, ys, mode) then Truth(true)
    else if |missing| > 0 && |missing| == |xs| * |ys| then Blank(missing)
    else Truth(false)
  }

  const NEAR := "g\U{1EA7}n \U{0111}\U{00FA}ng"
  const PART := "chua"

  /** A function applied; None when it reaches for an argument that is not there. */
  function Applied(lib: Lib, fn: Fn, args: seq<Value>): Option<Value> {
    match fn
    case Aggregate(agg) => Some(Aggregated(lib, agg, args))
    case Count => Some(Counted(args))
    case Exists => Some(AnyKnown(Flat(args)))
    case Same => Some(Sameness(lib, Flat(args)))
    case Today => Some(Day(lib.today, ""))
    case Abs =>
      if |args| < 1 then None
      else Some(if args[0].Amount? then Amount(Absolute(args[0].n)) else Blank([NeedsNumber(Abs)]))
    case Round => if |args| < 1 then None else Some(Rounded(lib, args))
    case Between => if |args| < 3 then None else Some(AllInRange(lib, args[0], args[1], args[2]))
    case Match =>
      if |args| < 2 then None
      else Some(Matching(lib, Flat([args[0]]), Flat([args[1]]), if |args| > 2 then TextOf(args[2]) else NEAR))
    case Contains => if |args| < 2 then None else Some(Matching(lib, Flat([args[0]]), Flat([args[1]]), PART))
    case If => if |args| < 1 then None else Chosen(args)
    case AndAll => if |args| < 1 then None else Some(FoldLogic(true, args[0], args[1..]))
    case OrAll => if |args| < 1 then None else Some(FoldLogic(false, args[0], args[1..]))
    case DateAdd => if |args| < 3 then None else Some(AddedTo(lib, args[0], args[1], args[2]))
  }

  /** How few and how many arguments a function is declared with. */
  function MinArgs(fn: Fn): nat {
    match fn
    case Between => 3
    case DateAdd => 3
    case Match => 2
    case Contains => 2
    case If => 2
    case AndAll => 2
    case OrAll => 2
    case Today => 0
    case _ => 1
  }

  function MaxArgs(fn: Fn): Option<nat> {
    match fn
    case Exists => Some(1)
    case Abs => Some(1)
    case Round => Some(2)
    case Between => Some(3)
    case Match => Some(3)
    case Contains => Some(2)
    case If => Some(3)
    case DateAdd => Some(3)
    case Today => Some(0)
    case _ => None
  }

  /** The names under which a formula finds the functions. */
  function SourceFunctions(name: string): Option<Fn> {
    if name == "SUM" then Some(Aggregate(SumOf)) else if name == "MIN" then Some(Aggregate(MinOf))
    else if name == "MAX" then Some(Aggregate(MaxOf)) else if name == "AVERAGE" then Some(Aggregate(AverageOf))
    else if name == "COUNT" then Some(Count) else if name == "EXISTS" then Some(Exists)
    else if name == "ABS" then Some(Abs) else if name == "ROUND" then Some(Round)
    else if name == "BETWEEN" then Some(Between) else if name == "SAME" then Some(Same)
    else if name == "MATCH" then Some(Match) else if name == "CONTAINS" then Some(Contains)
    else if name == "IF" then Some(If) else if name == "AND" then Some(AndAll) else if name == "OR" then Some(OrAll)
    else if name == "DATE_ADD" then Some(DateAdd) else if name == "TODAY" then Some(Today)
    else None
  }

  // ---------------------------------------------------------------- what they come to

  lemma {:induction false} TotalSnoc(xs: seq<real>, x: real)
    ensures Total(xs + [x]) == Total(xs) + x
  {
    assert (xs + [x])[..|xs|] == xs;
  }

  lemma {:induction false} LeastIsLeast(xs: seq<real>)
    requires xs != []
    ensures Least(xs) in xs && forall k :: 0 <= k < |xs| ==> Least(xs) <= xs[k]
  {
    if |xs| > 1 {
      LeastIsLeast(xs[1..]);
      forall k | 0 <= k < |xs| ensures Least(xs) <= xs[k] {
        if k > 0 {
          assert xs[k] == xs[1..][k - 1];
        }
      }
    }
  }

  lemma {:induction false} GreatestIsGreatest(xs: seq<real>)
    requires xs != []
    ensures Greatest(xs) in xs && forall k :: 0 <= k < |xs| ==> xs[k] <= Greatest(xs)
  {
    if |xs| > 1 {
      GreatestIsGreatest(xs[1..]);
      forall k | 0 <= k < |xs| ensures xs[k] <= Greatest(xs) {
        if k > 0 {
          assert xs[k] == xs[1..][k - 1];
        }
      }
    }
  }

  lemma {:induction false} MissingInSome(items: seq<Value>)
    ensures MissingIn(items) != [] <==> exists k :: 0 <= k < |items| && Asks(VerdictOf(items[k]))
  {
    if items != [] {
      MissingInSome(items[1..]);
      if Asks(VerdictOf(items[0])) {
        assert MissingIn(items)[0] == Missing(VerdictOf(items[0]))[0];
      }
      if k :| 0 <= k < |items[1..]| && Asks(VerdictOf(items[1..][k])) {
        assert Asks(VerdictOf(items[k + 1]));
      }
      if k :| 0 < k < |items| && Asks(VerdictOf(items[k])) {
        assert items[1..][k - 1] == items[k];
      }
    }
  }

  /** When a list passes: no item fails or is ill-typed, and none says that data is missing.
      An unknown item that gives no reason counts as passed. */
  lemma ListPasses(items: seq<Value>)
    requires items != []
    ensures VerdictOf(Many(items)) == Pass <==>
            forall k :: 0 <= k < |items| ==> VerdictOf(items[k]) == Pass || VerdictOf(items[k]) == Unclear([])
  {
    MissingInSome(items);
    if forall k :: 0 <= k < |items| ==> VerdictOf(items[k]) == Pass || VerdictOf(items[k]) == Unclear([]) {
      assert !Has(items, Wrong) && !Has(items, Fail);
    } else {
      var k :| 0 <= k < |items| && VerdictOf(items[k]) != Pass && VerdictOf(items[k]) != Unclear([]);
      match VerdictOf(items[k])
      case Wrong => assert Has(items, Wrong);
      case Fail => assert Has(items, Fail);
      case Unclear(_) => assert Asks(VerdictOf(items[k]));
    }
  }
}
