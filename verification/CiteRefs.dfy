/**
 The citation rewriter (internal/agent/citerefs.go): ids written with case refs,
 doc:d2: or doc:d1.n4:, become document ids, on streamed text. The two regular
 expressions are written out as grammars and read by one automaton.
 */
module CiteRefs {
  import opened Util
  import opened Sequences
  import opened Text

  type Refs = map<string, string>

  const CITE := "doc:"

  // ------------------------------------------------------------------ the grammars

  /** doc:(d\d+)(?:\.n\d+)?: */
  predicate IsRef(m: string) {
    HasPrefix(m, "doc:d") && IsNumberEnd(m[5..])
  }

  predicate IsNumberEnd(t: string) {
    var n := DigitRun(t);
    n > 0 && IsRefEnd(t[n..])
  }

  predicate IsRefEnd(u: string) {
    u == ":" || (HasPrefix(u, ".n") && IsPageEnd(u[2..]))
  }

  predicate IsPageEnd(w: string) {
    var k := DigitRun(w);
    k > 0 && w[k..] == ":"
  }

  /** (?:doc:(?:d(?:\d+(?:\.(?:n\d*)?)?)?)?|doc|do|d)$ for a text that is all tail. */
  predicate IsTail(v: string) {
    v == "d" || v == "do" || v == "doc" || (HasPrefix(v, "doc:") && IsKeyTail(v[4..]))
  }

  predicate IsKeyTail(r: string) {
    r == "" || (r[0] == 'd' && IsNumberTail(r[1..]))
  }

  predicate IsNumberTail(t: string) {
    var n := DigitRun(t);
    t == "" || (n > 0 && IsPageTail(t[n..]))
  }

  predicate IsPageTail(u: string) {
    u == "" || u == "." || (HasPrefix(u, ".n") && DigitRun(u[2..]) == |u| - 2)
  }

  // ----------------------------------------------------------------- the automaton

  datatype Q = Out | D | Do | Doc | Colon | Ref | Num | Dot | N | Page | Done | Dead

  function Next(q: Q, c: char): Q {
    match q
    case Out => if c == 'd' then D else Dead
    case D => if c == 'o' then Do else Dead
    case Do => if c == 'c' then Doc else Dead
    case Doc => if c == ':' then Colon else Dead
    case Colon => if c == 'd' then Ref else Dead
    case Ref => if IsDigit(c) then Num else Dead
    case Num => if IsDigit(c) then Num else if c == '.' then Dot else if c == ':' then Done else Dead
    case Dot => if c == 'n' then N else Dead
    case N => if IsDigit(c) then Page else Dead
    case Page => if IsDigit(c) then Page else if c == ':' then Done else Dead
    case Done => Dead
    case Dead => Dead
  }

  function Run(q: Q, s: string): Q
    decreases |s|
  {
    if s == "" then q else Run(Next(q, s[0]), s[1..])
  }

  /** How many characters are read until the automaton accepts, if it does. */
  function Match(q: Q, s: string): (n: Option<nat>)
    ensures n.Some? ==> n.value <= |s|
    decreases |s|
  {
    if q == Done then Some(0)
    else if q == Dead || s == "" then None
    else Later(Match(Next(q, s[0]), s[1..]), 1)
  }

  function Later(n: Option<nat>, k: nat): Option<nat> {
    if n.Some? then Some(n.value + k) else None
  }

  predicate Alive(q: Q, s: string) {
    Run(q, s) != Dead && Run(q, s) != Done
  }

  predicate Accepts(q: Q, s: string) {
    Match(q, s) == Some(|s|)
  }

  /** The text so far may still become a citation. */
  predicate Viable(v: string) {
    v != "" && Alive(Out, v)
  }

  function RefAt(s: string): Option<nat> {
    Match(Out, s)
  }

  // ------------------------------------------- the automaton reads the grammars

  lemma {:induction false} RunDead(s: string)
    ensures Run(Dead, s) == Dead && (s != "" ==> Run(Done, s) == Dead)
    decreases |s|
  {
    if s != "" {
      RunDead(s[1..]);
    }
  }

  /** Reading a run of digits in a state that loops on digits. */
  lemma {:induction false} MatchDigits(q: Q, t: string)
    requires q == Num || q == Page
    ensures var n := DigitRun(t);
            && Run(q, t) == Run(q, t[n..])
            && Match(q, t) == Later(Match(q, t[n..]), n)
    decreases |t|
  {
    if t != "" && IsDigit(t[0]) {
      MatchDigits(q, t[1..]);
      assert t[1..][DigitRun(t[1..])..] == t[DigitRun(t)..];
    } else {
      assert t[0..] == t;
    }
  }

  lemma {:induction false} RunUnfolds(q: Q, s: string)
    requires s != ""
    ensures Run(q, s) == Run(Next(q, s[0]), s[1..])
    ensures q != Done && q != Dead ==> Match(q, s) == Later(Match(Next(q, s[0]), s[1..]), 1)
  {
  }

  /** A character the state does not expect kills the run. */
  lemma Unexpected(q: Q, s: string)
    requires s != "" && Next(q, s[0]) == Dead && q != Done && q != Dead
    ensures Run(q, s) == Dead && Match(q, s) == None
  {
    RunUnfolds(q, s);
    RunDead(s[1..]);
  }

  /** A state that expects one character `c`, which leads to `q'`. */
  lemma Expecting(q: Q, c: char, q': Q, s: string)
    requires s != "" && q != Done && q != Dead
    requires forall x :: Next(q, x) == if x == c then q' else Dead
    ensures s[0] == c ==> Run(q, s) == Run(q', s[1..]) && Match(q, s) == Later(Match(q', s[1..]), 1)
    ensures s[0] != c ==> Run(q, s) == Dead && Match(q, s) == None
  {
    RunUnfolds(q, s);
    if s[0] != c {
      Unexpected(q, s);
    }
  }

  lemma BeginsWithCite(s: string)
    requires |s| >= 4
    ensures s[..4] == CITE <==> s[0] == 'd' && s[1] == 'o' && s[2] == 'c' && s[3] == ':'
  {
    assert s[..4] == [s[0], s[1], s[2], s[3]];
  }

  lemma LaterTwice(n: Option<nat>, k: nat, j: nat)
    ensures Later(Later(n, k), j) == Later(n, k + j)
  {
  }

  /** The four characters of "doc:" lead to state Colon, anything else nowhere. */
  lemma AfterCite(s: string)
    requires |s| >= 4
    ensures if s[..4] == CITE then Run(Out, s) == Run(Colon, s[4..]) && Match(Out, s) == Later(Match(Colon, s[4..]), 4)
            else Run(Out, s) == Dead && Match(Out, s) == None
  {
    var tail := s[1..];
    BeginsWithCite(s);
    Expecting(Out, 'd', D, s);
    AfterD(tail);
    assert tail[0] == s[1] && tail[1] == s[2] && tail[2] == s[3] && tail[3..] == s[4..];
    LaterTwice(Match(Colon, s[4..]), 3, 1);
  }

  lemma AfterD(s: string)
    requires |s| >= 3
    ensures s[0] == 'o' && s[1] == 'c' && s[2] == ':' ==>
              Run(D, s) == Run(Colon, s[3..]) && Match(D, s) == Later(Match(Colon, s[3..]), 3)
    ensures !(s[0] == 'o' && s[1] == 'c' && s[2] == ':') ==> Run(D, s) == Dead && Match(D, s) == None
  {
    var s1, s2 := s[1..], s[2..];
    DropDrop(s, 1, 1);
    DropDrop(s, 2, 1);
    Expecting(D, 'o', Do, s);
    Expecting(Do, 'c', Doc, s1);
    Expecting(Doc, ':', Colon, s2);
  }

  lemma Reads(q: Q, s: string)
    requires s != "" && q != Done && q != Dead
    ensures Alive(q, s) == Alive(Next(q, s[0]), s[1..])
    ensures Accepts(q, s) == Accepts(Next(q, s[0]), s[1..])
  {
    RunUnfolds(q, s);
  }

  lemma DeadEnd(s: string)
    ensures !Alive(Dead, s) && !Accepts(Dead, s) && !Alive(Done, s) && (Accepts(Done, s) <==> s == "")
  {
    RunDead(s);
  }

  lemma Digits(q: Q, t: string)
    requires q == Num || q == Page
    ensures Alive(q, t) == Alive(q, t[DigitRun(t)..])
    ensures Accepts(q, t) == Accepts(q, t[DigitRun(t)..])
  {
    MatchDigits(q, t);
  }

  lemma FromPage(x: string)
    requires x == "" || !IsDigit(x[0])
    ensures Accepts(Page, x) <==> x == ":"
    ensures Alive(Page, x) <==> x == ""
  {
    if x != "" {
      Reads(Page, x);
      DeadEnd(x[1..]);
    }
  }

  lemma FromN(w: string)
    ensures Accepts(N, w) <==> IsPageEnd(w)
    ensures Alive(N, w) <==> DigitRun(w) == |w|
  {
    var k := DigitRun(w);
    DigitRunIsMaximal(w);
    if w != "" {
      Reads(N, w);
      if k > 0 {
        Reads(Page, w);
        Digits(Page, w);
        FromPage(w[k..]);
      } else {
        DeadEnd(w[1..]);
      }
    }
  }

  lemma FromDot(v: string)
    ensures Accepts(Dot, v) <==> v != "" && v[0] == 'n' && IsPageEnd(v[1..])
    ensures Alive(Dot, v) <==> v == "" || (v[0] == 'n' && DigitRun(v[1..]) == |v| - 1)
  {
    if v != "" {
      Reads(Dot, v);
      FromN(v[1..]);
      DeadEnd(v[1..]);
    }
  }

  /** From state Num, at a character that is not a digit. */
  lemma FromNum(u: string)
    requires u == "" || !IsDigit(u[0])
    ensures Accepts(Num, u) <==> IsRefEnd(u)
    ensures Alive(Num, u) <==> IsPageTail(u)
  {
    if u != "" {
      Reads(Num, u);
      FromDot(u[1..]);
      DeadEnd(u[1..]);
      assert |u| >= 2 ==> u[1..][1..] == u[2..];
    }
  }

  lemma FromRef(t: string)
    ensures Accepts(Ref, t) <==> IsNumberEnd(t)
    ensures Alive(Ref, t) <==> IsNumberTail(t)
  {
    var n := DigitRun(t);
    DigitRunIsMaximal(t);
    if t != "" {
      Reads(Ref, t);
      if n > 0 {
        Reads(Num, t);
        Digits(Num, t);
        FromNum(t[n..]);
      } else {
        DeadEnd(t[1..]);
      }
    }
  }

  lemma FromColon(r: string)
    ensures Accepts(Colon, r) <==> r != "" && r[0] == 'd' && IsNumberEnd(r[1..])
    ensures Alive(Colon, r) <==> IsKeyTail(r)
  {
    if r != "" {
      Reads(Colon, r);
      FromRef(r[1..]);
      DeadEnd(r[1..]);
    }
  }

  /** The automaton accepts exactly the citations of the grammar, and is alive exactly on
      the tails of the second one. */
  lemma AutomatonIsGrammar(m: string)
    ensures IsRef(m) <==> RefAt(m) == Some(|m|)
    ensures IsTail(m) <==> Viable(m)
  {
    if |m| >= 4 {
      AfterCite(m);
      FromColon(m[4..]);
      if |m| >= 5 {
        assert m[..5] == m[..4] + [m[4]];
        assert m[4..][1..] == m[5..];
      }
    } else {
      ShortTexts(m);
    }
  }

  lemma ShortTexts(m: string)
    requires |m| < 4
    ensures RefAt(m) == None || m == ""
    ensures IsTail(m) <==> Viable(m)
  {
    if m != "" {
      RunUnfolds(Out, m);
      if m[0] != 'd' {
        Unexpected(Out, m);
      } else if |m| >= 2 {
        var a := m[1..];
        RunUnfolds(D, a);
        if a[0] != 'o' {
          Unexpected(D, a);
        } else if |m| == 3 {
          RunUnfolds(Do, a[1..]);
        }
      }
    }
  }

  // --------------------------------------------------------------- the rewriter

  /** The case ref of a citation at the front of `s`. */
  function Key(s: string): string
    requires |s| >= 5
  {
    s[4..5 + DigitRun(s[5..])]
  }

  function Resolved(s: string, n: nat, refs: Refs): string
    requires n <= |s|
  {
    if |s| >= 5 && Key(s) in refs then CITE + refs[Key(s)] + ":" else s[..n]
  }

  /** Every citation, from the left and without overlap, is replaced or kept. */
  function Rewrite(s: string, refs: Refs): string
    decreases |s|
  {
    if s == "" then ""
    else match RefAt(s)
      case Some(n) => if n == 0 then "" else Resolved(s, n, refs) + Rewrite(s[n..], refs)
      case None => [s[0]] + Rewrite(s[1..], refs)
  }

  /** Where the leftmost tail that may still become a citation begins. */
  function Cut(s: string): (n: nat)
    ensures n <= |s|
    decreases |s|
  {
    if s == "" || Viable(s) then 0 else 1 + Cut(s[1..])
  }

  // ------------------------------------------------------ where citations can begin

  /** A match depends only on the text it covers. */
  lemma {:induction false} MatchIsLocal(q: Q, s: string, t: string)
    requires Match(q, s).Some? && Match(q, s).value <= |t|
    requires s[..Match(q, s).value] == t[..Match(q, s).value]
    ensures Match(q, t) == Match(q, s)
    decreases |s|
  {
    if q != Done {
      var n := Match(q, s).value;
      assert s[0] == s[..n][0] == t[..n][0] == t[0];
      assert s[1..][..n - 1] == s[..n][1..] && t[1..][..n - 1] == t[..n][1..];
      MatchIsLocal(Next(q, s[0]), s[1..], t[1..]);
    }
  }

  /** A match that reaches beyond `v` leaves the automaton alive at the end of `v`. */
  lemma {:induction false} BeyondIsAlive(q: Q, v: string, w: string)
    requires Match(q, v + w).Some? && Match(q, v + w).value > |v|
    ensures Alive(q, v)
    decreases |v|
  {
    if v == "" {
      assert v + w == w;
    } else {
      assert (v + w)[1..] == v[1..] + w;
      BeyondIsAlive(Next(q, v[0]), v[1..], w);
    }
  }

  /** The steps still needed for a citation, and a text that takes them. */
  function Missing(q: Q): nat {
    match q
    case Out => 7 case D => 6 case Do => 5 case Doc => 4 case Colon => 3
    case Ref => 2 case Num => 1 case Dot => 3 case N => 2 case Page => 1
    case Done => 0 case Dead => 0
  }

  function Completion(q: Q): string
    decreases Missing(q)
  {
    if q == Done || q == Dead then "" else
    var c := match q
             case Out => 'd' case D => 'o' case Do => 'c' case Doc => ':' case Colon => 'd'
             case Ref => '0' case Dot => 'n' case N => '0' case _ => ':';
    [c] + Completion(Next(q, c))
  }

  lemma {:induction false} CompletionAccepts(q: Q)
    requires q != Dead
    ensures Accepts(q, Completion(q))
    decreases Missing(q)
  {
    if q != Done {
      var c := Completion(q)[0];
      CompletionAccepts(Next(q, c));
      Reads(q, Completion(q));
      assert Completion(q)[1..] == Completion(Next(q, c));
    }
  }

  lemma {:induction false} AcceptsAppend(q: Q, v: string, w: string)
    requires Alive(q, v) && Accepts(Run(q, v), w)
    ensures Accepts(q, v + w)
    decreases |v|
  {
    if v == "" {
      assert v + w == w;
    } else {
      RunDead(v);
      Reads(q, v);
      Reads(q, v + w);
      assert (v + w)[1..] == v[1..] + w;
      AcceptsAppend(Next(q, v[0]), v[1..], w);
    }
  }

  /** Text is held exactly while some continuation would make it a citation. */
  lemma HeldWhileOpen(v: string)
    ensures IsTail(v) <==> v != "" && exists w :: w != "" && IsRef(v + w)
  {
    AutomatonIsGrammar(v);
    if IsTail(v) {
      var w := Completion(Run(Out, v));
      CompletionAccepts(Run(Out, v));
      AcceptsAppend(Out, v, w);
      AutomatonIsGrammar(v + w);
      assert w != "" && IsRef(v + w);
    } else if v != "" && exists w :: w != "" && IsRef(v + w) {
      var w :| w != "" && IsRef(v + w);
      AutomatonIsGrammar(v + w);
      BeyondIsAlive(Out, v, w);
    }
  }

  /** A citation, or its tail, begins with "do" or is the single letter d. */
  lemma BeginsWithDo(s: string)
    requires s != "" && (s[0] != 'd' || (|s| > 1 && s[1] != 'o'))
    ensures RefAt(s) == None && !Viable(s)
  {
    if s[0] == 'd' {
      RunUnfolds(Out, s);
      Unexpected(D, s[1..]);
    } else {
      Unexpected(Out, s);
    }
  }

  /** Inside a citation no other begins: a d is only followed by o at its front. */
  lemma {:induction false} NothingBeginsInside(q: Q, s: string, i: nat)
    requires q != Out && Match(q, s).Some? && i < Match(q, s).value
    ensures RefAt(s[i..]) == None && !Viable(s[i..])
    decreases |s|
  {
    if i > 0 {
      NothingBeginsInside(Next(q, s[0]), s[1..], i - 1);
      DropDrop(s, 1, i - 1);
    } else {
      Whole(s);
      if s[0] == 'd' {
        assert q == Colon;
        RunUnfolds(Colon, s);
        assert s[1..] != "" && IsDigit(s[1..][0]);
      }
      BeginsWithDo(s);
    }
  }

  lemma {:induction false} CutSkips(s: string, i: nat)
    requires i <= |s|
    requires forall j :: 0 <= j < i ==> !Viable(s[j..])
    ensures Cut(s) == i + Cut(s[i..])
  {
    if i > 0 {
      assert s[0..] == s;
      assert forall j :: 0 <= j < i - 1 ==> s[1..][j..] == s[j + 1..];
      CutSkips(s[1..], i - 1);
      assert s[1..][i - 1..] == s[i..];
    } else {
      assert s[0..] == s;
    }
  }

  // ------------------------------------------------- rewriting in two parts

  /** A citation that begins before the cut ends before it, whatever follows. */
  lemma MatchEndsBeforeCut(s: string, rest: string)
    requires s != "" && !Viable(s) && RefAt(s + rest).Some?
    ensures var n := RefAt(s + rest).value;
            0 < n <= |s| && RefAt(s) == Some(n) && Cut(s) == n + Cut(s[n..])
  {
    var t := s + rest;
    var n := RefAt(t).value;
    if n > |s| {
      BeyondIsAlive(Out, s, rest);
      assert false;
    }
    assert t[..n] == s[..n];
    MatchIsLocal(Out, t, s);
    forall j | 0 <= j < n ensures !Viable(s[j..]) {
      if j > 0 {
        RunUnfolds(Out, s);
        NothingBeginsInside(Next(Out, s[0]), s[1..], j - 1);
        assert s[1..][j - 1..] == s[j..];
      } else {
        assert s[0..] == s;
      }
    }
    CutSkips(s, n);
  }

  /** The replacement looks no further than the citation. */
  lemma ResolvedIsLocal(s: string, t: string, n: nat, refs: Refs)
    requires RefAt(s) == Some(n) && n <= |t| && s[..n] == t[..n]
    ensures n > 5 && Resolved(s, n, refs) == Resolved(t, n, refs)
  {
    KeyIsLocal(s, t, n);
  }

  lemma {:induction false} DigitRunIsLocal(a: string, b: string, n: nat)
    requires n <= |a| && n <= |b| && a[..n] == b[..n]
    requires DigitRun(a) < n
    ensures DigitRun(b) == DigitRun(a)
  {
    assert a[0] == a[..n][0] == b[..n][0] == b[0];
    if IsDigit(a[0]) {
      assert a[1..][..n - 1] == a[..n][1..] && b[1..][..n - 1] == b[..n][1..];
      DigitRunIsLocal(a[1..], b[1..], n - 1);
    }
  }

  /** A citation begins with "doc:d". */
  lemma RefKey(s: string, n: nat)
    requires RefAt(s) == Some(n)
    ensures n > 5 && |s| >= n && s[..4] == CITE && s[4] == 'd'
    ensures Match(Ref, s[5..]) == Some(n - 5)
  {
    if |s| >= 4 {
      AfterCite(s);
      Expecting(Colon, 'd', Ref, s[4..]);
      assert s[4..][1..] == s[5..];
      RunUnfolds(Ref, s[5..]);
    } else {
      ShortTexts(s);
    }
  }

  lemma KeyEndsInside(s: string, n: nat)
    requires RefAt(s) == Some(n)
    ensures n > 5 && |s| >= n && 0 < DigitRun(s[5..]) < n - 5
  {
    RefKey(s, n);
    var t := s[5..];
    RunUnfolds(Ref, t);
    RunUnfolds(Num, t);
    DigitRunIsMaximal(t);
    MatchDigits(Num, t);
  }

  /** A citation at the front of the text lies before the cut. */
  lemma CutAfterCitation(s: string, rest: string, refs: Refs)
    requires s != "" && !Viable(s) && RefAt(s + rest).Some?
    ensures var n := RefAt(s + rest).value;
            && 0 < n <= |s| && Cut(s) == n + Cut(s[n..])
            && RefAt(s[..Cut(s)]) == Some(n)
            && Resolved(s + rest, n, refs) == Resolved(s[..Cut(s)], n, refs)
  {
    var t, p := s + rest, s[..Cut(s)];
    var n := RefAt(t).value;
    MatchEndsBeforeCut(s, rest);
    TakeTake(s, Cut(s), n);
    TakeWithin(s, rest, n);
    MatchIsLocal(Out, t, p);
    ResolvedIsLocal(t, p, n, refs);
  }

  /** How the parts of `s + rest` lie when the first `k` characters go before the cut. */
  lemma PartsAfter(s: string, rest: string, k: nat, cut: nat)
    requires 0 < k <= cut <= |s|
    ensures (s + rest)[k..] == s[k..] + rest
    ensures s[..cut][k..] == s[k..][..cut - k]
    ensures s[k..][cut - k..] == s[cut..]
  {
  }

  /** The main fact: the text before the cut can be rewritten on its own, and what is
      held can wait for whatever comes. */
  lemma {:induction false} RewriteAtCut(s: string, rest: string, refs: Refs)
    ensures Rewrite(s + rest, refs) == Rewrite(s[..Cut(s)], refs) + Rewrite(s[Cut(s)..] + rest, refs)
    decreases |s|
  {
    if s == "" || Viable(s) {
      Whole(s);
    } else {
      var k, piece := FirstPiece(s, rest, refs);
      PartsAfter(s, rest, k, Cut(s));
      RewriteAtCut(s[k..], rest, refs);
      Rejoin(piece, Rewrite(s[..Cut(s)][k..], refs), Rewrite(s[Cut(s)..] + rest, refs));
    }
  }

  /** The first step of rewriting is the same for the whole text and for the part before
      the cut. */
  lemma FirstPiece(s: string, rest: string, refs: Refs) returns (k: nat, piece: string)
    requires s != "" && !Viable(s)
    ensures 0 < k <= Cut(s) && Cut(s) == k + Cut(s[k..])
    ensures k <= |s| && Rewrite(s + rest, refs) == piece + Rewrite((s + rest)[k..], refs)
    ensures Rewrite(s[..Cut(s)], refs) == piece + Rewrite(s[..Cut(s)][k..], refs)
  {
    var t, p := s + rest, s[..Cut(s)];
    if RefAt(t).Some? {
      CutAfterCitation(s, rest, refs);
      k, piece := RefAt(t).value, Resolved(t, RefAt(t).value, refs);
    } else {
      TakeWithin(s, rest, Cut(s));
      NoMatchInPrefix(p, t);
      k, piece := 1, [t[0]];
    }
  }

  lemma NoMatchInPrefix(p: string, t: string)
    requires RefAt(t) == None && |p| <= |t| && t[..|p|] == p
    ensures RefAt(p) == None
  {
    if RefAt(p).Some? {
      var n := RefAt(p).value;
      assert p[..n] == t[..|p|][..n] == t[..n];
      MatchIsLocal(Out, p, t);
    }
  }

  /** What rewriting is: a citation at the front is replaced by one of the document its case
      ref stands for, or kept when the ref is not known; other characters are copied. */
  lemma CitationIsRewritten(m: string, rest: string, refs: Refs)
    requires IsRef(m)
    ensures |m| > 5 && Rewrite(m + rest, refs) ==
            (if Key(m) in refs then CITE + refs[Key(m)] + ":" else m) + Rewrite(rest, refs)
  {
    AutomatonIsGrammar(m);
    var t := m + rest;
    Parts(m, rest);
    Whole(m);
    MatchIsLocal(Out, m, t);
    KeyIsLocal(m, t, |m|);
  }

  lemma {:induction false} OtherTextIsCopied(s: string, refs: Refs)
    requires forall i :: 0 <= i < |s| ==> RefAt(s[i..]) == None
    ensures Rewrite(s, refs) == s
    decreases |s|
  {
    if s != "" {
      Whole(s);
      forall i | 0 <= i < |s| - 1 ensures RefAt(s[1..][i..]) == None {
        DropDrop(s, 1, i);
      }
      OtherTextIsCopied(s[1..], refs);
      HeadTail(s);
    }
  }

  /** The captured key is the letter d and all the digits that follow it. */
  lemma KeyIsDigits(m: string)
    requires IsRef(m)
    ensures |m| > 5 && Key(m)[0] == 'd' && |Key(m)| > 1
    ensures forall k :: 1 <= k < |Key(m)| ==> IsDigit(Key(m)[k])
    ensures var n := 4 + |Key(m)|; n < |m| && m[4..n] == Key(m) && (m[n] == ':' || m[n] == '.')
  {
    AutomatonIsGrammar(m);
    RefKey(m, |m|);
    KeyEndsInside(m, |m|);
    DigitRunIsMaximal(m[5..]);
    forall k | 1 <= k < |Key(m)| ensures IsDigit(Key(m)[k]) {
      assert Key(m)[k] == m[5..][k - 1];
    }
    var u := m[5..][DigitRun(m[5..])..];
    assert IsRefEnd(u);
    assert u[0] == m[4 + |Key(m)|];
  }

  /** A text of decimal digits, at least one. */
  predicate AreDigits(s: string) {
    s != "" && forall k :: 0 <= k < |s| ==> '0' <= s[k] <= '9'
  }

  /** What may stand between a case ref and its colon: nothing, or the number of a page. */
  predicate IsPagePart(part: string) {
    part == "" || (|part| > 2 && part[0] == '.' && part[1] == 'n' && AreDigits(part[2..]))
  }

  lemma {:induction false} DigitsThen(ds: string, tail: string)
    requires forall k :: 0 <= k < |ds| ==> '0' <= ds[k] <= '9'
    requires tail == "" || !('0' <= tail[0] <= '9')
    ensures DigitRun(ds + tail) == |ds|
  {
    if ds == "" {
      Nothing(tail);
    } else {
      assert (ds + tail)[1..] == ds[1..] + tail;
      DigitsThen(ds[1..], tail);
    }
  }

  lemma WrittenIsRef(ds: string, part: string)
    requires AreDigits(ds) && IsPagePart(part)
    ensures IsRef("doc:d" + (ds + (part + ":")))
  {
    var m, u := "doc:d" + (ds + (part + ":")), part + ":";
    assert m[..5] == "doc:d" && m[5..] == ds + u;
    DigitsThen(ds, u);
    Parts(ds, u);
    if part != "" {
      assert u[..2] == ".n" && u[2..] == part[2..] + ":";
      DigitsThen(part[2..], ":");
      Parts(part[2..], ":");
    }
  }

  lemma WrittenKey(ds: string, u: string)
    requires AreDigits(ds) && u != "" && !('0' <= u[0] <= '9')
    ensures Key("doc:d" + (ds + u)) == "d" + ds
  {
    var m := "doc:d" + (ds + u);
    DigitsThen(ds, u);
    assert m[5..] == ds + u && m[4..5 + |ds|] == "d" + ds;
  }

  /** What is done with a citation: with all its digits it names the case ref, and a known
      one gives way to its document, whatever page it had; an unknown one stays. */
  lemma CaseRefIsResolved(ds: string, part: string, rest: string, refs: Refs)
    requires AreDigits(ds) && IsPagePart(part)
    ensures var m := "doc:d" + (ds + (part + ":"));
            Rewrite(m + rest, refs) ==
            (if "d" + ds in refs then "doc:" + refs["d" + ds] + ":" else m) + Rewrite(rest, refs)
  {
    WrittenIsRef(ds, part);
    WrittenKey(ds, part + ":");
    CitationIsRewritten("doc:d" + (ds + (part + ":")), rest, refs);
  }

  // ------------------------------------------------------------------- streaming

  /** What one feed leaves held, and what it sends. */
  function Fed(held: string, s: string, refs: Refs): (string, string) {
    if |refs| == 0 then (held, s) else
    var t := held + s;
    (t[Cut(t)..], Rewrite(t[..Cut(t)], refs))
  }

  function Sent(held: string, chunks: seq<string>, refs: Refs): (string, string)
    decreases |chunks|
  {
    if chunks == [] then (held, "") else
    var first := Fed(held, chunks[0], refs);
    var rest := Sent(first.0, chunks[1..], refs);
    (rest.0, first.1 + rest.1)
  }

  lemma {:induction false} NoRefsNoChange(s: string, refs: Refs)
    requires |refs| == 0
    ensures Rewrite(s, refs) == s
    decreases |s|
  {
    if s != "" {
      match RefAt(s)
      case Some(n) =>
        NoRefsNoChange(s[n..], refs);
        assert s == s[..n] + s[n..];
      case None =>
        NoRefsNoChange(s[1..], refs);
    }
  }

  /** Streaming equals whole-text rewriting: however the text is cut, the feeds and the
      flush together send the rewriting of the whole. */
  lemma {:induction false} StreamingIsRewriting(held: string, chunks: seq<string>, refs: Refs)
    requires |refs| == 0 ==> held == ""
    ensures var sent := Sent(held, chunks, refs);
            sent.1 + Rewrite(sent.0, refs) == Rewrite(held + Concat(chunks), refs)
    decreases |chunks|
  {
    if chunks == [] {
      Nothing(held);
    } else {
      var first := Fed(held, chunks[0], refs);
      var rest := Concat(chunks[1..]);
      StreamingIsRewriting(first.0, chunks[1..], refs);
      var sent := Sent(first.0, chunks[1..], refs);
      Rejoin(first.1, sent.1, Rewrite(sent.0, refs));
      Rejoin(held, chunks[0], rest);
      FedIsRewriting(held, chunks[0], rest, refs);
    }
  }

  /** So it is with a streamed citation, however it is cut. */
  lemma StreamedRefIsResolved(ds: string, part: string, rest: string, chunks: seq<string>, refs: Refs)
    requires AreDigits(ds) && IsPagePart(part) && Concat(chunks) == "doc:d" + (ds + (part + ":")) + rest
    ensures var m := "doc:d" + (ds + (part + ":"));
            var sent := Sent("", chunks, refs);
            sent.1 + Rewrite(sent.0, refs) ==
            (if "d" + ds in refs then "doc:" + refs["d" + ds] + ":" else m) + Rewrite(rest, refs)
  {
    StreamingIsRewriting("", chunks, refs);
    Nothing(Concat(chunks));
    CaseRefIsResolved(ds, part, rest, refs);
  }

  /** What one feed sends, and what is held with all that follows, make up the whole. */
  lemma FedIsRewriting(held: string, s: string, rest: string, refs: Refs)
    requires |refs| == 0 ==> held == ""
    ensures var fed := Fed(held, s, refs);
            Rewrite((held + s) + rest, refs) == fed.1 + Rewrite(fed.0 + rest, refs)
  {
    if |refs| == 0 {
      Nothing(s);
      Nothing(rest);
      NoRefsNoChange(rest, refs);
      NoRefsNoChange(s + rest, refs);
    } else {
      RewriteAtCut(held + s, rest, refs);
    }
  }

  // ----------------------------------------------------- nothing resolvable remains

  /** A document id: hexadecimal digits and dashes, with at least one dash. */
  predicate IsId(id: string) {
    && (forall k :: 0 <= k < |id| ==> IsDigit(id[k]) || 'a' <= id[k] <= 'f' || 'A' <= id[k] <= 'F' || id[k] == '-')
    && '-' in id
  }

  ghost predicate ProperIds(refs: Refs) {
    forall k :: k in refs ==> IsId(refs[k])
  }

  /** A citation that stands at position `i` and whose case ref is known. */
  predicate ResolvableAt(s: string, i: nat, refs: Refs)
    requires i <= |s|
  {
    RefAt(s[i..]).Some? && |s[i..]| >= 5 && Key(s[i..]) in refs
  }

  /** An id interrupts any citation that would begin before it. */
  lemma {:induction false} IdsBlock(q: Q, id: string, rest: string)
    requires '-' in id && forall k :: 0 <= k < |id| ==> id[k] != ':'
    requires q != Done
    ensures Match(q, id + rest) == None
    decreases |id|
  {
    var t := id + rest;
    if q != Dead {
      RunUnfolds(q, t);
      if id[0] != '-' {
        assert t[1..] == id[1..] + rest;
        IdsBlock(Next(q, id[0]), id[1..], rest);
      }
    }
  }

  lemma RewriteBeginsWithDo(s: string, refs: Refs)
    requires s != "" && RefAt(s).Some?
    ensures var r := Rewrite(s, refs);
            |r| > 1 && r[0] == 'd' && r[1] == 'o'
  {
    var n := RefAt(s).value;
    RefKey(s, n);
    assert s[0] == s[..4][0] && s[1] == s[..4][1];
  }

  lemma DoIsNoContinuation(q: Q, r: string)
    requires q != Out && q != Done && |r| > 1 && r[0] == 'd' && r[1] == 'o'
    ensures Match(q, r) == None
  {
    if q != Dead {
      RunUnfolds(q, r);
      if q == Colon {
        Unexpected(Ref, r[1..]);
      }
    }
  }

  /** Rewriting creates no citation: what is read across it was there before. */
  lemma {:induction false} MatchSurvives(q: Q, s: string, refs: Refs)
    requires q != Out && q != Done
    requires Match(q, Rewrite(s, refs)).Some?
    ensures Match(q, s) == Match(q, Rewrite(s, refs))
    decreases |s|
  {
    if s != "" {
      var r := Rewrite(s, refs);
      if RefAt(s).Some? {
        RewriteBeginsWithDo(s, refs);
        DoIsNoContinuation(q, r);
        assert false;
      } else {
        RunUnfolds(q, r);
        RunUnfolds(q, s);
        assert r[1..] == Rewrite(s[1..], refs);
        if Next(q, s[0]) != Done {
          MatchSurvives(Next(q, s[0]), s[1..], refs);
        }
      }
    }
  }

  /** No position of a replaced citation begins a citation. */
  lemma ReplacementIsClean(id: string, rest: string, i: nat)
    requires IsId(id) && i < |CITE + id + ":"|
    ensures RefAt((CITE + id + ":" + rest)[i..]) == None
  {
    var t := CITE + id + ":" + rest;
    if i == 0 {
      assert t[..4] == CITE && t[0..] == t;
      AfterCite(t);
      assert t[4..] == id + (":" + rest);
      IdsBlock(Colon, id, ":" + rest);
    } else {
      assert t[i..][0] == t[i];
      if t[i] == 'd' {
        assert t[i] == id[i - 4] && t[i + 1] == if i + 1 - 4 < |id| then id[i + 1 - 4] else ':';
        assert t[i..][1] == t[i + 1] != 'o';
      }
      BeginsWithDo(t[i..]);
    }
  }

  /** After rewriting no citation with a known case ref is left anywhere. */
  lemma {:induction false} NothingResolvableRemains(s: string, refs: Refs, i: nat)
    requires ProperIds(refs)
    requires i <= |Rewrite(s, refs)|
    ensures !ResolvableAt(Rewrite(s, refs), i, refs)
    decreases |s|
  {
    var r := Rewrite(s, refs);
    if s != "" {
      var k := if RefAt(s).Some? then RefAt(s).value else 1;
      var piece := if RefAt(s).Some? then Resolved(s, k, refs) else [s[0]];
      var rest := Rewrite(s[k..], refs);
      assert r == piece + rest;
      if i >= |piece| {
        NothingResolvableRemains(s[k..], refs, i - |piece|);
        assert r[i..] == rest[i - |piece|..];
      } else if RefAt(s).None? {
        assert r[0..] == r;
        CopiedHeadIsClean(s, refs);
      } else if |s| >= 5 && Key(s) in refs {
        ReplacementIsClean(refs[Key(s)], rest, i);
        assert r == CITE + refs[Key(s)] + ":" + rest;
      } else {
        RefKey(s, k);
        KeptCitationIsClean(s, k, rest, refs, i);
      }
    }
  }

  lemma CopiedHeadIsClean(s: string, refs: Refs)
    requires s != "" && RefAt(s) == None
    ensures RefAt(Rewrite(s, refs)) == None
  {
    var r := Rewrite(s, refs);
    RunUnfolds(Out, r);
    RunUnfolds(Out, s);
    assert r[1..] == Rewrite(s[1..], refs);
    if RefAt(r).Some? {
      MatchSurvives(Next(Out, s[0]), s[1..], refs);
    }
  }

  lemma KeptCitationIsClean(s: string, n: nat, rest: string, refs: Refs, i: nat)
    requires RefAt(s) == Some(n) && i < n
    requires |s| >= 5 && Key(s) !in refs
    ensures !ResolvableAt(s[..n] + rest, i, refs)
  {
    var r := s[..n] + rest;
    assert r[..n] == s[..n];
    MatchIsLocal(Out, s, r);
    if i == 0 {
      assert r[0..] == r;
      KeyIsLocal(s, r, n);
    } else {
      RunUnfolds(Out, r);
      NothingBeginsInside(Next(Out, r[0]), r[1..], i - 1);
      assert r[1..][i - 1..] == r[i..];
    }
  }

  lemma KeyIsLocal(s: string, t: string, n: nat)
    requires RefAt(s) == Some(n) && n <= |t| && s[..n] == t[..n]
    ensures n > 5 && Key(s) == Key(t)
  {
    KeyEndsInside(s, n);
    TakeOfDrop(s, 5, n - 5);
    TakeOfDrop(t, 5, n - 5);
    DigitRunIsLocal(s[5..], t[5..], n - 5);
  }

  // ------------------------------------------------------------------- the class

  class Rewriter {
    const refs: Refs
    var held: string

    ghost predicate Valid()
      reads this
    {
      |refs| == 0 ==> held == ""
    }

    constructor (refs: Refs)
      ensures Valid() && held == "" && this.refs == refs
    {
      this.refs := refs;
      held := "";
    }

    /** The text that is safe to send. */
    method Feed(s: string) returns (out: string)
      requires Valid()
      modifies this
      ensures Valid()
      ensures (held, out) == Fed(old(held), s, refs)
    {
      if |refs| == 0 {
        return s;
      }
      var t := held + s;
      var cut := Cut(t);
      held := t[cut..];
      out := Rewrite(t[..cut], refs);
    }

    /** Releases what is still held. */
    method Flush() returns (out: string)
      requires Valid()
      modifies this
      ensures Valid() && held == ""
      ensures out == Rewrite(old(held), refs)
    {
      var s := held;
      held := "";
      out := Rewrite(s, refs);
    }
  }
}
