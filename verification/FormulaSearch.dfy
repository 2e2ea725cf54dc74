/**
 SAME and MATCH (internal/checkexpr/eval.go): whether the values of several documents are
 the same, and whether one is found among others. Both take a reason for a missing value,
 but a missing value can give no reason, or several; where the counts differ, so do the
 answers from what is meant.
 */
module FormulaSearch {
  import opened Util
  import opened Sequences
  import opened FormulaValues

  datatype Answer = Yes | No | Undecided

  function AnswerOf(v: Value): Answer {
    if v.Truth? then if v.b then Yes else No else Undecided
  }

  // -------------------------------------------------------------------------- SAME

  predicate Alike(lib: Lib, items: seq<Value>) {
    forall i, j :: 0 <= i < |items| && 0 <= j < |items| && !items[i].Blank? && !items[j].Blank? ==>
      lib.key(items[i]) == lib.key(items[j])
  }

  /** What is meant: two values are needed to compare, and all that are known must be alike. */
  function SameMeant(lib: Lib, items: seq<Value>): Answer {
    if Known(items) < 2 then Undecided else if Alike(lib, items) then Yes else No
  }

  lemma GivenNext(missing: seq<Reason>, items: seq<Value>, i: nat)
    requires i < |items|
    ensures missing + GivenIn(items[i..]) == (missing + Given(items[i])) + GivenIn(items[i + 1..])
  {
    assert items[i..][1..] == items[i + 1..];
    Rejoin(missing, Given(items[i]), GivenIn(items[i + 1..]));
  }

  function KeyIn(lib: Lib, v: Value): seq<string> {
    if v.Blank? then [] else [lib.key(v)]
  }

  lemma KeysNext(lib: Lib, keys: seq<string>, items: seq<Value>, i: nat)
    requires i < |items|
    ensures keys + Keys(lib, items[i..]) == (keys + KeyIn(lib, items[i])) + Keys(lib, items[i + 1..])
  {
    assert items[i..][1..] == items[i + 1..];
    Rejoin(keys, KeyIn(lib, items[i]), Keys(lib, items[i + 1..]));
  }

  lemma DistinctSnoc(keys: seq<string>, k: string)
    ensures Distinct(keys + [k]) == if k in Distinct(keys) then Distinct(keys) else Distinct(keys) + [k]
  {
    assert (keys + [k])[..|keys|] == keys;
  }

  method Same(lib: Lib, items: seq<Value>) returns (r: Value)
    ensures r == Sameness(lib, items)
  {
    var byKey: map<string, seq<Value>> := map[];
    var order: seq<string> := [];
    var missing: seq<Reason> := [];
    ghost var keys: seq<string> := [];
    var i := 0;
    while i < |items|
      invariant 0 <= i <= |items|
      invariant keys + Keys(lib, items[i..]) == Keys(lib, items) && order == Distinct(keys)
      invariant missing + GivenIn(items[i..]) == GivenIn(items)
      invariant forall k :: k in byKey <==> k in order
    {
      GivenNext(missing, items, i);
      KeysNext(lib, keys, items, i);
      if items[i].Blank? {
        missing := missing + items[i].reasons;
        Nothing(keys);
      } else {
        var k := lib.key(items[i]);
        DistinctSnoc(keys, k);
        if k !in byKey {
          order := order + [k];
        }
        byKey := byKey[k := (if k in byKey then byKey[k] else []) + [items[i]]];
        keys := keys + [k];
        Nothing(missing);
      }
      i := i + 1;
    }
    Nothing(keys);
    Nothing(missing);
    if |items| - |missing| < 2 {
      return Blank(missing + [TooFewToCompare]);
    }
    return Truth(|order| == 1);
  }

  predicate IsKeyOf(lib: Lib, items: seq<Value>, k: string) {
    exists i :: 0 <= i < |items| && !items[i].Blank? && lib.key(items[i]) == k
  }

  /** The keys are those of the known items, one for each. */
  lemma {:induction false} KeysOfKnown(lib: Lib, items: seq<Value>)
    ensures |Keys(lib, items)| == Known(items)
    ensures forall i :: 0 <= i < |items| && !items[i].Blank? ==> lib.key(items[i]) in Keys(lib, items)
    ensures forall k :: k in Keys(lib, items) ==> IsKeyOf(lib, items, k)
  {
    if items != [] {
      var rest := items[1..];
      KeysOfKnown(lib, rest);
      forall i | 0 <= i < |items| && !items[i].Blank? ensures lib.key(items[i]) in Keys(lib, items) {
        if i > 0 {
          assert rest[i - 1] == items[i];
        }
      }
      forall k | k in Keys(lib, items) ensures IsKeyOf(lib, items, k) {
        if k in Keys(lib, rest) {
          var i :| 0 <= i < |rest| && !rest[i].Blank? && lib.key(rest[i]) == k;
          assert items[i + 1] == rest[i];
        }
      }
    }
  }

  lemma KeysAlike(lib: Lib, items: seq<Value>)
    requires |Distinct(Keys(lib, items))| == 1
    ensures Alike(lib, items)
  {
    var k := Distinct(Keys(lib, items))[0];
    assert Distinct(Keys(lib, items)) == [k];
    forall i | 0 <= i < |items| && !items[i].Blank? ensures lib.key(items[i]) == k {
      KeysOfKnown(lib, items);
      assert lib.key(items[i]) in Distinct(Keys(lib, items));
    }
  }

  lemma KeysDiffer(lib: Lib, items: seq<Value>)
    requires |Distinct(Keys(lib, items))| > 1
    ensures !Alike(lib, items)
  {
    KeysOfKnown(lib, items);
    var ks := Distinct(Keys(lib, items));
    assert ks[0] in Keys(lib, items) && ks[1] in Keys(lib, items);
    var i :| 0 <= i < |items| && !items[i].Blank? && lib.key(items[i]) == ks[0];
    var j :| 0 <= j < |items| && !items[j].Blank? && lib.key(items[j]) == ks[1];
  }

  /** One key is left exactly when something is known and all of it is alike. */
  lemma OneKey(lib: Lib, items: seq<Value>)
    ensures |Distinct(Keys(lib, items))| == 1 <==> Alike(lib, items) && Known(items) > 0
  {
    KeysOfKnown(lib, items);
    if |Distinct(Keys(lib, items))| > 1 {
      KeysDiffer(lib, items);
    } else if |Distinct(Keys(lib, items))| == 1 {
      KeysAlike(lib, items);
    }
  }

  /** SAME answers what is meant if and only if counting reasons instead of missing items
      makes no difference to whether two values are known. */
  lemma SameExactly(lib: Lib, items: seq<Value>)
    ensures AnswerOf(Sameness(lib, items)) == SameMeant(lib, items)
            <==> (|items| - |GivenIn(items)| < 2 <==> Known(items) < 2)
  {
    OneKey(lib, items);
  }

  predicate OneReasonEach(items: seq<Value>) {
    forall i :: 0 <= i < |items| && items[i].Blank? ==> |items[i].reasons| == 1
  }

  lemma {:induction false} ReasonsAreGaps(items: seq<Value>)
    requires OneReasonEach(items)
    ensures |GivenIn(items)| == |items| - Known(items)
  {
    if items != [] {
      ReasonsAreGaps(items[1..]);
    }
  }

  /** SAME answers what is meant when every missing value gives one reason. */
  lemma SameWithPlainGaps(lib: Lib, items: seq<Value>)
    requires OneReasonEach(items)
    ensures AnswerOf(Sameness(lib, items)) == SameMeant(lib, items)
  {
    ReasonsAreGaps(items);
    SameExactly(lib, items);
  }

  // ------------------------------------------------------------------------- MATCH

  /** What is meant: a list matches when an item does; when nothing can be compared, the
      answer is open. */
  function MatchMeant(lib: Lib, xs: seq<Value>, ys: seq<Value>, mode: string): Answer {
    if Found(lib, xs, ys, mode) then Yes
    else if xs != [] && ys != [] && (Known(xs) == 0 || Known(ys) == 0) then Undecided
    else No
  }

  lemma RowNext(missing: seq<Reason>, x: Value, ys: seq<Value>, j: nat)
    requires j < |ys|
    ensures missing + RowReasons(x, ys[j..]) == (missing + (Given(x) + Given(ys[j]))) + RowReasons(x, ys[j + 1..])
  {
    assert ys[j..][1..] == ys[j + 1..];
    Rejoin(missing, Given(x) + Given(ys[j]), RowReasons(x, ys[j + 1..]));
  }

  /** One item against all of the other side. */
  method MatchOne(lib: Lib, x: Value, ys: seq<Value>, mode: string) returns (found: bool, missing: seq<Reason>)
    ensures found <==> exists j :: 0 <= j < |ys| && Fit(lib, x, ys[j], mode)
    ensures !found ==> missing == RowReasons(x, ys)
  {
    found, missing := false, [];
    var j := 0;
    while j < |ys|
      invariant 0 <= j <= |ys| && !found
      invariant missing + RowReasons(x, ys[j..]) == RowReasons(x, ys)
      invariant forall k :: 0 <= k < j ==> !Fit(lib, x, ys[k], mode)
    {
      RowNext(missing, x, ys, j);
      if x.Blank? || ys[j].Blank? {
        missing := missing + (Given(x) + Given(ys[j]));
      } else if lib.fits(x, ys[j], mode) {
        assert Fit(lib, x, ys[j], mode);
        return true, missing;
      } else {
        assert Given(x) + Given(ys[j]) == [];
        Nothing(missing);
      }
      j := j + 1;
    }
    Nothing(missing);
  }

  lemma PairsNext(missing: seq<Reason>, xs: seq<Value>, ys: seq<Value>, i: nat)
    requires i < |xs|
    ensures missing + PairReasons(xs[i..], ys) == (missing + RowReasons(xs[i], ys)) + PairReasons(xs[i + 1..], ys)
  {
    assert xs[i..][1..] == xs[i + 1..];
    Rejoin(missing, RowReasons(xs[i], ys), PairReasons(xs[i + 1..], ys));
  }

  method MatchAny(lib: Lib, xs: seq<Value>, ys: seq<Value>, mode: string) returns (r: Value)
    ensures r == Matching(lib, xs, ys, mode)
  {
    var missing: seq<Reason> := [];
    var i := 0;
    while i < |xs|
      invariant 0 <= i <= |xs|
      invariant missing + PairReasons(xs[i..], ys) == PairReasons(xs, ys)
      invariant forall k, j :: 0 <= k < i && 0 <= j < |ys| ==> !Fit(lib, xs[k], ys[j], mode)
    {
      PairsNext(missing, xs, ys, i);
      var found, more := MatchOne(lib, xs[i], ys, mode);
      if found {
        return Truth(true);
      }
      missing := missing + more;
      i := i + 1;
    }
    Nothing(missing);
    if |missing| > 0 && |missing| == |xs| * |ys| {
      return Blank(missing);
    }
    return Truth(false);
  }

  // -------------------------------------------------------------- when MATCH is right

  lemma {:induction false} RowCount(x: Value, ys: seq<Value>)
    ensures |RowReasons(x, ys)| == |Given(x)| * |ys| + |GivenIn(ys)|
  {
    if ys != [] {
      RowCount(x, ys[1..]);
      OneMore(|Given(x)|, |ys| - 1);
    }
  }

  lemma OneMore(a: int, m: int)
    ensures a * (m + 1) == a * m + a
  {
  }

  lemma AnotherRow(a: int, b: int, m: int, n: int, r: int)
    ensures (a + b) * m + (n + 1) * r == (a * m + r) + (b * m + n * r)
  {
  }

  /** Every reason of the one side is counted for every item of the other. */
  lemma {:induction false} PairCount(xs: seq<Value>, ys: seq<Value>)
    ensures |PairReasons(xs, ys)| == |GivenIn(xs)| * |ys| + |xs| * |GivenIn(ys)|
  {
    if xs != [] {
      PairCount(xs[1..], ys);
      RowCount(xs[0], ys);
      AnotherRow(|Given(xs[0])|, |GivenIn(xs[1..])|, |ys|, |xs| - 1, |GivenIn(ys)|);
    }
  }

  /** MATCH answers what is meant if and only if a pair fits, or a side is empty, or the
      reasons are as many as the pairs exactly when one side is missing altogether. */
  lemma MatchExactly(lib: Lib, xs: seq<Value>, ys: seq<Value>, mode: string)
    ensures AnswerOf(Matching(lib, xs, ys, mode)) == MatchMeant(lib, xs, ys, mode) <==>
            || Found(lib, xs, ys, mode) || xs == [] || ys == []
            || (|GivenIn(xs)| * |ys| + |xs| * |GivenIn(ys)| == |xs| * |ys| <==> Known(xs) == 0 || Known(ys) == 0)
  {
    PairCount(xs, ys);
    if xs == [] || ys == [] {
      assert |xs| * |ys| == 0;
    } else {
      Grows(1, |xs|, |ys|);
    }
  }

  lemma Grows(a: nat, b: nat, m: nat)
    requires a <= b
    ensures a * m <= b * m && m * a <= m * b
  {
  }

  lemma Pairs(p: nat, q: nat, n: nat, m: nat)
    requires 0 < n && 0 < m
    ensures n * m > 0
    ensures n * m + n * q == n * m <==> q == 0
    ensures p * m + n * m == n * m <==> p == 0
  {
    if q > 0 {
      Grows(1, q, n);
    }
    if p > 0 {
      Grows(1, p, m);
    }
    Grows(1, n, m);
  }

  /** `p` of `n` and `q` of `m` are missing, one reason each: when the reasons are as many as
      the pairs exactly when a side is missing altogether. */
  lemma PlainCounts(p: nat, q: nat, n: nat, m: nat)
    requires 0 < n && 0 < m && p <= n && q <= m
    ensures (p * m + n * q == n * m <==> p == n || q == m) <==>
            (p == n && q == 0) || (q == m && p == 0) || (p < n && q < m && p * m + n * q != n * m)
  {
    Pairs(p, q, n, m);
  }

  /** With one reason for every missing value, MATCH answers what is meant if and only if a
      pair fits, or a side is empty, or one side is missing altogether and the other not at
      all, or neither is and the reasons are not by chance as many as the pairs. */
  lemma MatchWithPlainGaps(lib: Lib, xs: seq<Value>, ys: seq<Value>, mode: string)
    requires OneReasonEach(xs) && OneReasonEach(ys)
    ensures var p, q := |xs| - Known(xs), |ys| - Known(ys);
            AnswerOf(Matching(lib, xs, ys, mode)) == MatchMeant(lib, xs, ys, mode) <==>
            || Found(lib, xs, ys, mode) || xs == [] || ys == []
            || (p == |xs| && q == 0) || (q == |ys| && p == 0)
            || (p < |xs| && q < |ys| && p * |ys| + |xs| * q != |xs| * |ys|)
  {
    MatchExactly(lib, xs, ys, mode);
    ReasonsAreGaps(xs);
    ReasonsAreGaps(ys);
    if xs != [] && ys != [] {
      PlainCounts(|GivenIn(xs)|, |GivenIn(ys)|, |xs|, |ys|);
    }
  }

  predicate AllMissing(items: seq<Value>) {
    forall i :: 0 <= i < |items| ==> items[i].Blank? && items[i].reasons != []
  }

  lemma {:induction false} ReasonsOfGaps(items: seq<Value>)
    requires AllMissing(items)
    ensures |GivenIn(items)| >= |items| && Known(items) == 0
  {
    if items != [] {
      ReasonsOfGaps(items[1..]);
    }
  }

  /** Nothing against nothing: when everything is missing on both sides, with whatever
      reasons, MATCH answers no although nothing is known. */
  lemma NothingDoesNotMatchNothing(lib: Lib, xs: seq<Value>, ys: seq<Value>, mode: string)
    requires xs != [] && ys != [] && AllMissing(xs) && AllMissing(ys)
    ensures AnswerOf(Matching(lib, xs, ys, mode)) == No && MatchMeant(lib, xs, ys, mode) == Undecided
  {
    ReasonsOfGaps(xs);
    ReasonsOfGaps(ys);
    PairCount(xs, ys);
    Grows(|xs|, |GivenIn(xs)|, |ys|);
    Grows(|ys|, |GivenIn(ys)|, |xs|);
    Grows(1, |xs|, |ys|);
  }
}
