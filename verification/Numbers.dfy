/**
 Writing numbers (fmtNum in internal/checkexpr/eval.go) and reading them (ParseNumber in
 docpipe/textutil/textutil.go): grouping by thousands against the guess which marks
 group and which is the decimal mark.
 */
module Numbers {
  import opened Util
  import opened Text
  import opened Decimals
  import opened Sequences

  // ------------------------------------------------------------------------ writing

  /** The digits from position `i` on, `mark` standing in front of every group of three but
      the first. */
  function Grouped(s: string, i: nat, mark: char): string
    requires i <= |s|
    decreases |s| - i
  {
    if i == |s| then "" else
    (if i > 0 && (|s| - i) % 3 == 0 then [mark] else "") + [s[i]] + Grouped(s, i + 1, mark)
  }

  function Magnitude(n: int): nat {
    if n < 0 then -n else n
  }

  function Sign(n: int): string {
    if n < 0 then "-" else ""
  }

  /** An integer with its thousands grouped by `mark`. */
  function Written(n: int, mark: char): string {
    Sign(n) + Grouped(Decimal(Magnitude(n)), 0, mark)
  }

  const LIMIT: int := 1_000_000_000_000_000

  /** What fmtNum writes; `places` writes a number that is no integer with two decimals. */
  function Formatted(x: real, places: real -> string): string {
    if x == Truncated(x) as real && -LIMIT < Truncated(x) < LIMIT then Written(Truncated(x), '.') else places(x)
  }

  method FmtNum(x: real, places: real -> string) returns (s: string)
    ensures s == Formatted(x, places)
  {
    var n := Truncated(x);
    if x == n as real && -LIMIT < n < LIMIT {
      var digits := Decimal(Magnitude(n));
      s := Sign(n);
      var i := 0;
      while i < |digits|
        invariant 0 <= i <= |digits|
        invariant s + Grouped(digits, i, '.') == Written(n, '.')
      {
        var piece := [digits[i]];
        if i > 0 && (|digits| - i) % 3 == 0 {
          piece := "." + piece;
        }
        Rejoin(s, piece, Grouped(digits, i + 1, '.'));
        s := s + piece;
        i := i + 1;
      }
      Nothing(s);
      return;
    }
    s := places(x);
  }

  // ------------------------------------------------------------------------ reading

  /** Go's character classes and its reader of plain numbers. */
  datatype Reader = Reader(digit: char -> bool, space: char -> bool, letter: char -> bool,
                           plain: string -> Option<real>)

  predicate IsMark(c: char) {
    c == '.' || c == ',' || c == '-'
  }

  /** Digits and marks are kept, blanks and letters dropped; anything else is no number. */
  function Kept(rd: Reader, s: string): Option<string> {
    if s == "" then Some("") else
    var rest := Kept(rd, s[1..]);
    if rd.digit(s[0]) || IsMark(s[0]) then if rest.None? then None else Some([s[0]] + rest.value)
    else if rd.space(s[0]) || rd.letter(s[0]) then rest
    else None
  }

  predicate OnlyMarks(t: string) {
    forall k :: 0 <= k < |t| ==> IsMark(t[k])
  }

  function CountOf(t: string, c: char): nat {
    if t == "" then 0 else (if t[0] == c then 1 else 0) + CountOf(t[1..], c)
  }

  /** The first place of `c`, the length of the text when there is none. */
  function FirstOf(t: string, c: char): (n: nat)
    ensures n <= |t|
  {
    if t == "" || t[0] == c then 0 else 1 + FirstOf(t[1..], c)
  }

  /** The last place of `c`, -1 when there is none. */
  function LastOf(t: string, c: char): int
    decreases |t|
  {
    if t == "" then -1 else if t[|t| - 1] == c then |t| - 1 else LastOf(t[..|t| - 1], c)
  }

  function Without(t: string, c: char): string {
    if t == "" then "" else (if t[0] == c then "" else [t[0]]) + Without(t[1..], c)
  }

  function Swapped(t: string, c: char, d: char): string {
    if t == "" then "" else [if t[0] == c then d else t[0]] + Swapped(t[1..], c, d)
  }

  /** What follows the first `c`, counted in bytes. */
  function DigitsAfter(t: string, c: char): int {
    Bytes(t) - Bytes(t[..FirstOf(t, c)]) - 1
  }

  /** The number in plain form: grouping marks dropped, the decimal mark a point. */
  function Plain(t: string): string {
    var dots, commas := CountOf(t, '.'), CountOf(t, ',');
    if dots > 0 && commas > 0 then
      if LastOf(t, ',') > LastOf(t, '.') then Swapped(Without(t, '.'), ',', '.') else Without(t, ',')
    else if dots > 1 then Without(t, '.')
    else if commas > 1 then Without(t, ',')
    else if dots == 1 && DigitsAfter(t, '.') == 3 then Without(t, '.')
    else if commas == 1 && DigitsAfter(t, ',') == 3 then Without(t, ',')
    else if commas == 1 then Swapped(t, ',', '.')
    else t
  }

  function Parsed(rd: Reader, s: string): Option<real> {
    var t := Kept(rd, s);
    if t.None? || OnlyMarks(t.value) then None else rd.plain(Plain(t.value))
  }

  method KeepMarks(rd: Reader, s: string) returns (t: Option<string>)
    ensures t == Kept(rd, s)
  {
    var b := "";
    var i := 0;
    assert s[0..] == s && (Kept(rd, s).Some? ==> "" + Kept(rd, s).value == Kept(rd, s).value);
    while i < |s|
      invariant 0 <= i <= |s|
      invariant Kept(rd, s) == if Kept(rd, s[i..]).None? then None else Some(b + Kept(rd, s[i..]).value)
    {
      assert s[i..][1..] == s[i + 1..];
      var c := s[i];
      if rd.digit(c) || IsMark(c) {
        if Kept(rd, s[i + 1..]).Some? {
          assert b + ([c] + Kept(rd, s[i + 1..]).value) == (b + [c]) + Kept(rd, s[i + 1..]).value;
        }
        b := b + [c];
      } else if !rd.space(c) && !rd.letter(c) {
        return None;
      }
      i := i + 1;
    }
    assert s[|s|..] == "" && b + "" == b;
    return Some(b);
  }

  method ParseNumber(rd: Reader, s: string) returns (x: Option<real>)
    ensures x == Parsed(rd, s)
  {
    var kept := KeepMarks(rd, s);
    if kept.None? || OnlyMarks(kept.value) {
      return None;
    }
    var t := kept.value;
    var dots, commas := CountOf(t, '.'), CountOf(t, ',');
    if dots > 0 && commas > 0 {
      if LastOf(t, ',') > LastOf(t, '.') {
        t := Without(t, '.');
        t := Swapped(t, ',', '.');
      } else {
        t := Without(t, ',');
      }
    } else if dots > 1 {
      t := Without(t, '.');
    } else if commas > 1 {
      t := Without(t, ',');
    } else if dots == 1 && DigitsAfter(t, '.') == 3 {
      t := Without(t, '.');
    } else if commas == 1 && DigitsAfter(t, ',') == 3 {
      t := Without(t, ',');
    } else if commas == 1 {
      t := Swapped(t, ',', '.');
    }
    x := rd.plain(t);
  }

  // --------------------------------------------------------------------- round trip

  /** Plain integers below the limit are read as what they are. */
  ghost predicate ReadsIntegers(rd: Reader) {
    && (forall c :: IsDigit(c) ==> rd.digit(c))
    && (forall n: int :: -LIMIT < n < LIMIT ==> rd.plain(Sign(n) + Decimal(Magnitude(n))) == Some(n as real))
  }

  predicate DigitsAndMarks(s: string) {
    forall k :: 0 <= k < |s| ==> IsDigit(s[k]) || IsMark(s[k])
  }

  lemma {:induction false} NothingDropped(rd: Reader, s: string)
    requires DigitsAndMarks(s) && forall c :: IsDigit(c) ==> rd.digit(c)
    ensures Kept(rd, s) == Some(s)
  {
    if s != "" {
      NothingDropped(rd, s[1..]);
      assert s == [s[0]] + s[1..];
    }
  }

  lemma {:induction false} NoneToCount(s: string, c: char)
    requires forall k :: 0 <= k < |s| ==> s[k] != c
    ensures CountOf(s, c) == 0 && Without(s, c) == s
  {
    if s != "" {
      NoneToCount(s[1..], c);
      assert s == [s[0]] + s[1..];
    }
  }

  lemma GroupedNext(s: string, i: nat, mark: char)
    requires i < |s|
    ensures var rest := Grouped(s, i + 1, mark);
            Grouped(s, i, mark) == if i > 0 && (|s| - i) % 3 == 0 then [mark] + ([s[i]] + rest) else [s[i]] + rest
  {
  }

  lemma {:induction false} GroupedCharacters(s: string, i: nat, mark: char)
    requires i <= |s| && AllDigits(s) && IsMark(mark)
    ensures var g := Grouped(s, i, mark);
            forall k :: 0 <= k < |g| ==> IsDigit(g[k]) || g[k] == mark
    decreases |s| - i
  {
    if i < |s| {
      GroupedCharacters(s, i + 1, mark);
      GroupedNext(s, i, mark);
    }
  }

  lemma MarkInFront(t: string, c: char, mark: char)
    ensures CountOf([c] + t, mark) == CountOf(t, mark) + if c == mark then 1 else 0
    ensures Without([c] + t, mark) == if c == mark then Without(t, mark) else [c] + Without(t, mark)
    ensures FirstOf([c] + t, mark) == if c == mark then 0 else 1 + FirstOf(t, mark)
  {
    assert ([c] + t)[1..] == t;
  }

  /** Dropping the grouping marks gives back the digits. */
  lemma {:induction false} UngroupedIsDigits(s: string, i: nat, mark: char)
    requires i <= |s| && AllDigits(s) && IsMark(mark)
    ensures Without(Grouped(s, i, mark), mark) == s[i..]
    decreases |s| - i
  {
    if i < |s| {
      UngroupedIsDigits(s, i + 1, mark);
      DropOne(s, i);
    }
  }

  /** How many marks there are, and where the first one stands. */
  lemma {:induction false} GroupedShape(s: string, i: nat, mark: char)
    requires 0 < i <= |s| && AllDigits(s) && IsMark(mark)
    ensures var g, r := Grouped(s, i, mark), |s| - i;
            && |g| == r + r / 3 && CountOf(g, mark) == r / 3
            && (r >= 3 ==> FirstOf(g, mark) == r % 3)
    decreases |s| - i
  {
    if i < |s| {
      var rest := Grouped(s, i + 1, mark);
      GroupedShape(s, i + 1, mark);
      GroupedNext(s, i, mark);
      MarkInFront(rest, s[i], mark);
      MarkInFront([s[i]] + rest, mark, mark);
    }
  }

  lemma DigitsAreCounted(t: string, c: char)
    requires DigitsAndMarks(t)
    ensures DigitsAfter(t, c) == |t| - FirstOf(t, c) - 1
  {
    BytesOfASCII(t);
    BytesOfASCII(t[..FirstOf(t, c)]);
  }

  /** A single grouping mark has exactly three digits behind it. */
  lemma SingleMark(s: string, mark: char)
    requires s != "" && AllDigits(s) && IsMark(mark)
    requires CountOf(Grouped(s, 0, mark), mark) == 1
    ensures DigitsAfter(Grouped(s, 0, mark), mark) == 3
  {
    GroupedShape(s, 1, mark);
    GroupedNext(s, 0, mark);
    MarkInFront(Grouped(s, 1, mark), s[0], mark);
    GroupedCharacters(s, 0, mark);
    DigitsAreCounted(Grouped(s, 0, mark), mark);
  }

  lemma {:induction false} OtherMarks(g: string, mark: char, c: char)
    requires forall k :: 0 <= k < |g| ==> IsDigit(g[k]) || g[k] == mark
    requires c != mark && IsMark(c)
    ensures CountOf(g, c) == 0
  {
    NoneToCount(g, c);
  }

  /** Whatever the sign, grouped digits are put in plain form. */
  lemma PlainOfGrouped(sign: string, s: string, mark: char)
    requires sign == "" || sign == "-"
    requires s != "" && AllDigits(s) && (mark == '.' || mark == ',')
    ensures Plain(sign + Grouped(s, 0, mark)) == sign + s
  {
    var g := Grouped(s, 0, mark);
    var other := if mark == '.' then ',' else '.';
    GroupedCharacters(s, 0, mark);
    UngroupedIsDigits(s, 0, mark);
    assert s[0..] == s;
    OtherMarks(g, mark, other);
    if CountOf(g, mark) == 1 {
      SingleMark(s, mark);
      DigitsAreCounted(g, mark);
      DigitsAreCounted(sign + g, mark);
    }
    if sign == "-" {
      MarkInFront(g, '-', mark);
      MarkInFront(g, '-', other);
    } else {
      assert sign + g == g && sign + s == s;
    }
    if CountOf(g, mark) == 0 {
      NoMarkNoChange(g, mark);
    }
  }

  lemma {:induction false} NoMarkNoChange(t: string, c: char)
    requires CountOf(t, c) == 0
    ensures Without(t, c) == t
  {
    if t != "" {
      NoMarkNoChange(t[1..], c);
      assert t == [t[0]] + t[1..];
    }
  }

  /** A sign and grouped digits: nothing else is written, and at least one digit. */
  lemma WrittenCharacters(sign: string, s: string, mark: char)
    requires sign == "" || sign == "-"
    requires s != "" && AllDigits(s) && (mark == '.' || mark == ',')
    ensures DigitsAndMarks(sign + Grouped(s, 0, mark)) && !OnlyMarks(sign + Grouped(s, 0, mark))
  {
    var g := Grouped(s, 0, mark);
    var t := sign + g;
    GroupedCharacters(s, 0, mark);
    GroupedNext(s, 0, mark);
    forall k | 0 <= k < |t| ensures IsDigit(t[k]) || IsMark(t[k]) {
      if k >= |sign| {
        assert t[k] == g[k - |sign|];
      }
    }
    assert t[|sign|] == g[0] == s[0];
  }

  /** Every integer below the limit is read back from how it is written, whether its
      thousands are grouped by points or by commas. */
  lemma ReadsWhatIsWritten(rd: Reader, n: int, mark: char)
    requires ReadsIntegers(rd) && -1_000_000_000_000_000 < n < 1_000_000_000_000_000 && (mark == '.' || mark == ',')
    ensures Parsed(rd, Written(n, mark)) == Some(n as real)
  {
    var s := Decimal(Magnitude(n));
    DecimalIsDigits(Magnitude(n));
    WrittenCharacters(Sign(n), s, mark);
    NothingDropped(rd, Written(n, mark));
    PlainOfGrouped(Sign(n), s, mark);
  }

  /** fmtNum writes integers so that ParseNumber reads them. */
  lemma FormattedIsRead(rd: Reader, n: int, places: real -> string)
    requires ReadsIntegers(rd) && -1_000_000_000_000_000 < n < 1_000_000_000_000_000
    ensures Parsed(rd, Formatted(n as real, places)) == Some(n as real)
  {
    TruncatedInteger(n);
    ReadsWhatIsWritten(rd, n, '.');
  }

  lemma TruncatedInteger(n: int)
    ensures Truncated(n as real) == n
  {
    assert (-(n as real)) == (-n) as real;
    assert ((-n) as real).Floor == -n;
    assert (n as real).Floor == n;
  }

  /** A number with one mark is read as an integer exactly when three digits follow the mark,
      and otherwise as the decimal number it may well have been meant to be. */
  lemma OneMark(rd: Reader, whole: string, frac: string, mark: char)
    requires AllDigits(whole) && AllDigits(frac) && whole != "" && (mark == '.' || mark == ',')
    requires forall c :: IsDigit(c) ==> rd.digit(c)
    ensures Parsed(rd, Marked(whole, mark, frac)) ==
            rd.plain(if |frac| == 3 then whole + frac else Marked(whole, '.', frac))
  {
    var t := Marked(whole, mark, frac);
    var other := if mark == '.' then ',' else '.';
    MarkedCharacters(whole, frac, mark);
    NothingDropped(rd, t);
    OneMarkShape(whole, frac, mark);
    DigitsAreCounted(t, mark);
    MarkSwapped(whole, frac, mark);
    NoneToCount(t, other);
  }

  lemma MarkedCharacters(whole: string, frac: string, mark: char)
    requires AllDigits(whole) && AllDigits(frac) && whole != "" && IsMark(mark)
    ensures var t := Marked(whole, mark, frac);
            && DigitsAndMarks(t) && !OnlyMarks(t)
            && forall k :: 0 <= k < |t| ==> IsDigit(t[k]) || t[k] == mark
  {
    assert Marked(whole, mark, frac)[0] == whole[0];
  }

  function Marked(whole: string, mark: char, frac: string): string {
    whole + [mark] + frac
  }

  lemma MarkedCons(c: char, whole: string, mark: char, frac: string)
    ensures Marked([c] + whole, mark, frac) == [c] + Marked(whole, mark, frac)
    ensures Marked("", mark, frac) == [mark] + frac
  {
    assert [c] + whole + [mark] + frac == [c] + (whole + [mark] + frac);
  }

  lemma {:induction false} OneMarkShape(whole: string, frac: string, mark: char)
    requires AllDigits(whole) && AllDigits(frac) && (mark == '.' || mark == ',')
    ensures var t := Marked(whole, mark, frac);
            CountOf(t, mark) == 1 && FirstOf(t, mark) == |whole| && Without(t, mark) == whole + frac
  {
    if whole == "" {
      MarkedCons(mark, "", mark, frac);
      MarkInFront(frac, mark, mark);
      NoneToCount(frac, mark);
      Nothing(frac);
    } else {
      HeadTail(whole);
      MarkedCons(whole[0], whole[1..], mark, frac);
      OneMarkShape(whole[1..], frac, mark);
      MarkInFront(Marked(whole[1..], mark, frac), whole[0], mark);
      Rejoin([whole[0]], whole[1..], frac);
    }
  }

  lemma {:induction false} MarkSwapped(whole: string, frac: string, mark: char)
    requires AllDigits(whole) && AllDigits(frac) && (mark == '.' || mark == ',')
    ensures Swapped(Marked(whole, mark, frac), mark, '.') == Marked(whole, '.', frac)
  {
    if whole == "" {
      MarkedCons(mark, "", mark, frac);
      MarkedCons(mark, "", '.', frac);
      NothingSwapped(frac, mark, '.');
    } else {
      HeadTail(whole);
      MarkedCons(whole[0], whole[1..], mark, frac);
      MarkedCons(whole[0], whole[1..], '.', frac);
      MarkSwapped(whole[1..], frac, mark);
    }
  }

  lemma {:induction false} NothingSwapped(s: string, c: char, d: char)
    requires forall k :: 0 <= k < |s| ==> s[k] != c
    ensures Swapped(s, c, d) == s
  {
    if s != "" {
      NothingSwapped(s[1..], c, d);
      assert s == [s[0]] + s[1..];
    }
  }

  // ------------------------------------------------------- both marks in one number

  lemma CountsAdd(a: string, b: string, c: char)
    ensures CountOf(a + b, c) == CountOf(a, c) + CountOf(b, c)
    ensures Without(a + b, c) == Without(a, c) + Without(b, c)
    ensures forall d :: Swapped(a + b, c, d) == Swapped(a, c, d) + Swapped(b, c, d)
  {
    if a == "" {
      Nothing(b);
      Nothing(Without(b, c));
      forall d ensures Swapped(a + b, c, d) == Swapped(a, c, d) + Swapped(b, c, d) {
        Nothing(Swapped(b, c, d));
      }
    } else {
      CountsAdd(a[1..], b, c);
      assert (a + b)[1..] == a[1..] + b;
      Rejoin(if a[0] == c then "" else [a[0]], Without(a[1..], c), Without(b, c));
      forall d ensures Swapped(a + b, c, d) == Swapped(a, c, d) + Swapped(b, c, d) {
        Rejoin([if a[0] == c then d else a[0]], Swapped(a[1..], c, d), Swapped(b, c, d));
      }
    }
  }

  lemma {:induction false} LastInFront(t: string, d: string, c: char)
    requires forall k :: 0 <= k < |d| ==> d[k] != c
    ensures LastOf(t + [c] + d, c) == |t|
    decreases |d|
  {
    if d == "" {
      Nothing(t + [c]);
    } else {
      InitLast(d);
      Rejoin(t + [c], d[..|d| - 1], [d[|d| - 1]]);
      Snoc(t + [c] + d[..|d| - 1], d[|d| - 1]);
      LastInFront(t, d[..|d| - 1], c);
    }
  }

  lemma {:induction false} LastWithin(t: string, rest: string, c: char)
    requires forall k :: 0 <= k < |rest| ==> rest[k] != c
    ensures LastOf(t + rest, c) < |t| || t == ""
    ensures t == "" ==> LastOf(t + rest, c) < 0
    decreases |rest|
  {
    if rest == "" {
      Nothing(t);
      LastIsInside(t, c);
    } else {
      InitLast(rest);
      Rejoin(t, rest[..|rest| - 1], [rest[|rest| - 1]]);
      Snoc(t + rest[..|rest| - 1], rest[|rest| - 1]);
      LastWithin(t, rest[..|rest| - 1], c);
    }
  }

  lemma {:induction false} LastIsInside(t: string, c: char)
    ensures LastOf(t, c) < |t|
    decreases |t|
  {
    if t != "" {
      LastIsInside(t[..|t| - 1], c);
    }
  }

  /** When both marks occur the last one is the decimal mark: grouped digits, the other mark
      and decimals are read as the decimal number. */
  lemma LastMarkIsDecimal(whole: string, frac: string, mark: char, other: char)
    requires |whole| > 3 && AllDigits(whole) && AllDigits(frac)
    requires (mark == '.' && other == ',') || (mark == ',' && other == '.')
    ensures Plain(Marked(Grouped(whole, 0, mark), other, frac)) == Marked(whole, '.', frac)
  {
    BothMarksCount(whole, frac, mark, other);
    OtherMarkIsLast(whole, frac, mark, other);
    GroupsDropped(whole, frac, mark, other);
    MarkSwapped(whole, frac, other);
  }

  lemma OtherMarkIsLast(whole: string, frac: string, mark: char, other: char)
    requires AllDigits(whole) && AllDigits(frac) && whole != ""
    requires (mark == '.' && other == ',') || (mark == ',' && other == '.')
    ensures var t := Marked(Grouped(whole, 0, mark), other, frac); LastOf(t, other) > LastOf(t, mark)
  {
    var g := Grouped(whole, 0, mark);
    LastInFront(g, frac, other);
    Rejoin(g, [other], frac);
    LastWithin(g, [other] + frac, mark);
    GroupedNext(whole, 0, mark);
  }

  /** Dropping the grouping marks leaves the digits and the other mark. */
  lemma GroupsDropped(whole: string, frac: string, mark: char, other: char)
    requires AllDigits(whole) && AllDigits(frac)
    requires (mark == '.' && other == ',') || (mark == ',' && other == '.')
    ensures Without(Marked(Grouped(whole, 0, mark), other, frac), mark) == Marked(whole, other, frac)
  {
    var g := Grouped(whole, 0, mark);
    UngroupedIsDigits(whole, 0, mark);
    Whole(whole);
    Rejoin(g, [other], frac);
    MarkInFront(frac, other, mark);
    NoneToCount(frac, mark);
    CountsAdd(g, [other] + frac, mark);
    Rejoin(whole, [other], frac);
  }

  lemma BothMarksCount(whole: string, frac: string, mark: char, other: char)
    requires |whole| > 3 && AllDigits(whole) && AllDigits(frac)
    requires (mark == '.' && other == ',') || (mark == ',' && other == '.')
    ensures var t := Marked(Grouped(whole, 0, mark), other, frac);
            CountOf(t, mark) > 0 && CountOf(t, other) > 0
  {
    var g := Grouped(whole, 0, mark);
    GroupedShape(whole, 1, mark);
    GroupedNext(whole, 0, mark);
    MarkInFront(Grouped(whole, 1, mark), whole[0], mark);
    Rejoin(g, [other], frac);
    CountsAdd(g, [other] + frac, mark);
    CountsAdd(g, [other] + frac, other);
    MarkInFront(frac, other, other);
  }
}
