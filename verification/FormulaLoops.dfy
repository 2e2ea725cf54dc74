/**
 The evaluator's loops over accumulators (internal/checkexpr/eval.go), each proved
 against the function that says what it computes.
 */
module FormulaLoops {
  import opened Util
  import opened Sequences
  import opened FormulaSyntax
  import opened FormulaValues

  /** Drops what has been seen before. */
  method Dedupe(xs: seq<Reason>) returns (out: seq<Reason>)
    ensures out == Distinct(xs)
  {
    var seen: map<Reason, bool> := map[];
    out := [];
    var i := 0;
    while i < |xs|
      invariant 0 <= i <= |xs| && out == Distinct(xs[..i])
      invariant forall x :: x in seen <==> x in out
    {
      assert xs[..i + 1][..i] == xs[..i];
      if xs[i] !in seen {
        seen := seen[xs[i] := true];
        out := out + [xs[i]];
      }
      i := i + 1;
    }
    assert xs[..|xs|] == xs;
  }

  lemma MissingNext(missing: seq<Reason>, items: seq<Value>, i: nat)
    requires i < |items|
    ensures missing + MissingIn(items[i..]) == (missing + Missing(VerdictOf(items[i]))) + MissingIn(items[i + 1..])
  {
    assert items[i..][1..] == items[i + 1..];
    Rejoin(missing, Missing(VerdictOf(items[i])), MissingIn(items[i + 1..]));
  }

  lemma HasNext(items: seq<Value>, i: nat, x: Verdict)
    requires i < |items|
    ensures Has(items[..i + 1], x) <==> Has(items[..i], x) || VerdictOf(items[i]) == x
  {
    if Has(items[..i], x) {
      var k :| 0 <= k < i && VerdictOf(items[..i][k]) == x;
      assert items[..i + 1][k] == items[..i][k];
    }
    if VerdictOf(items[i]) == x {
      assert items[..i + 1][i] == items[i];
    }
    if Has(items[..i + 1], x) {
      var k :| 0 <= k < i + 1 && VerdictOf(items[..i + 1][k]) == x;
      assert k < i ==> items[..i][k] == items[..i + 1][k];
    }
  }

  /** Only the verdicts of the items that are missing something are told. */
  lemma VerdictOfList(items: seq<Value>)
    requires items != [] && !Has(items, Wrong)
    ensures VerdictOf(Many(items)) == if Has(items, Fail) then Fail
                                      else if MissingIn(items) != [] then Unclear(Distinct(MissingIn(items))) else Pass
  {
  }

  /** The verdict of a value; of a list, in one pass that stops at an ill-typed item. */
  method ComputeVerdict(v: Value) returns (r: Verdict)
    ensures r == VerdictOf(v)
    decreases v, 1
  {
    match v {
      case Truth(b) => return if b then Pass else Fail;
      case Blank(reasons) =>
        var once := Dedupe(reasons);
        return Unclear(once);
      case Many(items) => r := ListVerdict(items);
      case _ => return Wrong;
    }
  }

  method ListVerdict(items: seq<Value>) returns (r: Verdict)
    ensures r == VerdictOf(Many(items))
    decreases items, 0
  {
    if |items| == 0 {
      return Unclear([NoDocuments]);
    }
    r := Pass;
    var missing: seq<Reason> := [];
    var i := 0;
    while i < |items|
      invariant 0 <= i <= |items|
      invariant r == Pass || r == Fail
      invariant r == Fail <==> Has(items[..i], Fail)
      invariant missing + MissingIn(items[i..]) == MissingIn(items)
      invariant !Has(items[..i], Wrong)
    {
      MissingNext(missing, items, i);
      HasNext(items, i, Fail);
      HasNext(items, i, Wrong);
      var sub := ComputeVerdict(items[i]);
      assert missing + [] == missing;
      match sub {
        case Fail => r := Fail;
        case Unclear(reasons) => missing := missing + reasons;
        case Wrong =>
          assert Has(items, Wrong);
          return Wrong;
        case Pass =>
      }
      i := i + 1;
    }
    assert items[..|items|] == items && items[|items|..] == [] && missing + [] == missing;
    VerdictOfList(items);
    if r == Pass && |missing| > 0 {
      var once := Dedupe(missing);
      r := Unclear(once);
    }
  }

  function Opened(v: Value): seq<Value> {
    if v.Many? then Flat(v.items) else [v]
  }

  lemma FlatNext(out: seq<Value>, args: seq<Value>, i: nat)
    requires i < |args|
    ensures out + Flat(args[i..]) == (out + Opened(args[i])) + Flat(args[i + 1..])
  {
    assert args[i..][1..] == args[i + 1..];
    assert out + (Opened(args[i]) + Flat(args[i + 1..])) == (out + Opened(args[i])) + Flat(args[i + 1..]);
  }

  method Flatten(args: seq<Value>) returns (out: seq<Value>)
    ensures out == Flat(args)
    decreases args
  {
    out := [];
    var i := 0;
    while i < |args|
      invariant 0 <= i <= |args|
      invariant out + Flat(args[i..]) == Flat(args)
    {
      FlatNext(out, args, i);
      if args[i].Many? {
        var inner := Flatten(args[i].items);
        out := out + inner;
      } else {
        out := out + [args[i]];
      }
      i := i + 1;
    }
    assert args[|args|..] == [];
  }

  function AmountIn(v: Value): seq<real> {
    if v.Amount? then [v.n] else []
  }

  lemma CollectNext(lib: Lib, agg: Agg, items: seq<Value>, i: nat, xs: seq<real>, missing: seq<Reason>)
    requires i < |items|
    ensures xs + Amounts(items[i..]) == (xs + AmountIn(items[i])) + Amounts(items[i + 1..])
    ensures missing + Complaints(lib, agg, items[i..]) ==
            (missing + Complaint(lib, agg, items[i])) + Complaints(lib, agg, items[i + 1..])
  {
    assert items[i..][1..] == items[i + 1..];
    Rejoin(xs, AmountIn(items[i]), Amounts(items[i + 1..]));
    Rejoin(missing, Complaint(lib, agg, items[i]), Complaints(lib, agg, items[i + 1..]));
  }

  /** Sorts the items into amounts and complaints. */
  method Collect(lib: Lib, agg: Agg, items: seq<Value>) returns (xs: seq<real>, missing: seq<Reason>)
    ensures xs == Amounts(items) && missing == Complaints(lib, agg, items)
  {
    xs, missing := [], [];
    var i := 0;
    while i < |items|
      invariant 0 <= i <= |items|
      invariant xs + Amounts(items[i..]) == Amounts(items)
      invariant missing + Complaints(lib, agg, items[i..]) == Complaints(lib, agg, items)
    {
      CollectNext(lib, agg, items, i, xs, missing);
      match items[i] {
        case Amount(n) =>
          Nothing(missing);
          xs := xs + [n];
        case Blank(reasons) =>
          Nothing(xs);
          missing := missing + reasons;
        case _ =>
          Nothing(xs);
          missing := missing + [Told(lib.say(NoNumber(agg, items[i])))];
      }
      i := i + 1;
    }
    assert items[|items|..] == [];
  }

  method AddUp(xs: seq<real>) returns (s: real)
    ensures s == Total(xs)
  {
    s := 0.0;
    var i := 0;
    while i < |xs|
      invariant 0 <= i <= |xs| && s == Total(xs[..i])
    {
      assert xs[..i + 1] == xs[..i] + [xs[i]];
      TotalSnoc(xs[..i], xs[i]);
      s := s + xs[i];
      i := i + 1;
    }
    assert xs[..|xs|] == xs;
  }

  predicate Ascending(xs: seq<real>) {
    forall j, k :: 0 <= j < k < |xs| ==> xs[j] <= xs[k]
  }

  lemma InsertedAscends(xs: seq<real>, x: real, j: nat)
    requires Ascending(xs) && j <= |xs|
    requires j > 0 ==> xs[j - 1] <= x
    requires forall k :: j <= k < |xs| ==> xs[k] > x
    ensures Ascending(xs[..j] + [x] + xs[j..])
  {
    var out := xs[..j] + [x] + xs[j..];
    forall a, b | 0 <= a < b < |out| ensures out[a] <= out[b] {
      if a < j && b >= j {
        assert xs[a] <= xs[j - 1];
      }
    }
  }

  lemma InsertedCounts(xs: seq<real>, x: real, j: nat)
    requires j <= |xs|
    ensures multiset(xs[..j] + [x] + xs[j..]) == multiset(xs) + multiset{x}
  {
    assert xs == xs[..j] + xs[j..];
  }

  method InsertUp(xs: seq<real>, x: real) returns (out: seq<real>)
    requires Ascending(xs)
    ensures Ascending(out) && multiset(out) == multiset(xs) + multiset{x}
  {
    var j := |xs|;
    while j > 0 && xs[j - 1] > x
      invariant 0 <= j <= |xs|
      invariant forall k :: j <= k < |xs| ==> xs[k] > x
    {
      j := j - 1;
    }
    InsertedAscends(xs, x, j);
    InsertedCounts(xs, x, j);
    out := xs[..j] + [x] + xs[j..];
  }

  /** The numbers in ascending order, as a library sorts them. */
  method SortUp(xs: seq<real>) returns (out: seq<real>)
    ensures Ascending(out) && multiset(out) == multiset(xs)
  {
    out := [];
    var i := 0;
    while i < |xs|
      invariant 0 <= i <= |xs| && Ascending(out) && multiset(out) == multiset(xs[..i])
    {
      assert xs[..i + 1] == xs[..i] + [xs[i]];
      out := InsertUp(out, xs[i]);
      i := i + 1;
    }
    assert xs[..|xs|] == xs;
  }

  /** The ends of a sorted sequence are the least and the greatest number. */
  lemma EndsOfSorted(xs: seq<real>, sorted: seq<real>)
    requires xs != [] && Ascending(sorted) && multiset(sorted) == multiset(xs)
    ensures |sorted| == |xs| && sorted[0] == Least(xs) && sorted[|sorted| - 1] == Greatest(xs)
  {
    LeastIsLeast(xs);
    GreatestIsGreatest(xs);
    assert |sorted| == |multiset(sorted)| == |multiset(xs)| == |xs|;
    assert Least(xs) in multiset(xs) && Greatest(xs) in multiset(xs);
    assert sorted[0] in multiset(sorted) && sorted[|sorted| - 1] in multiset(sorted);
    assert sorted[0] in xs && sorted[|sorted| - 1] in xs && Least(xs) in sorted && Greatest(xs) in sorted;
  }

  method ComputeAggregate(lib: Lib, agg: Agg, args: seq<Value>) returns (v: Value)
    ensures v == Aggregated(lib, agg, args)
  {
    var items := Flatten(args);
    var xs, missing := Collect(lib, agg, items);
    if |missing| > 0 {
      return Blank(missing);
    }
    if |xs| == 0 {
      return if agg == SumOf then Amount(0.0) else Blank([NoValues(agg)]);
    }
    match agg {
      case SumOf =>
        var s := AddUp(xs);
        return Amount(s);
      case AverageOf =>
        var s := AddUp(xs);
        return Amount(s / |xs| as real);
      case MinOf =>
        var sorted := SortUp(xs);
        EndsOfSorted(xs, sorted);
        return Amount(sorted[0]);
      case MaxOf =>
        var sorted := SortUp(xs);
        EndsOfSorted(xs, sorted);
        return Amount(sorted[|sorted| - 1]);
    }
  }

  method CountKnown(items: seq<Value>) returns (n: nat)
    ensures n == Known(items)
  {
    n := 0;
    var i := 0;
    while i < |items|
      invariant 0 <= i <= |items| && n + Known(items[i..]) == Known(items)
    {
      assert items[i..][1..] == items[i + 1..];
      if !items[i].Blank? {
        n := n + 1;
      }
      i := i + 1;
    }
  }

  /** AND(...) and OR(...) over any number of conditions. */
  method CombineAll(conj: bool, args: seq<Value>) returns (v: Value)
    requires args != []
    ensures v == FoldLogic(conj, args[0], args[1..])
  {
    v := args[0];
    var i := 1;
    while i < |args|
      invariant 1 <= i <= |args|
      invariant FoldLogic(conj, v, args[i..]) == FoldLogic(conj, args[0], args[1..])
    {
      assert args[i..][1..] == args[i + 1..];
      v := Logic(conj, v, args[i]);
      i := i + 1;
    }
  }
}
