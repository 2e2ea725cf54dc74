/**
 Edit distance (levenshtein and Similarity in docpipe/textutil/textutil.go): two rows of
 the table, swapped, compute the least number of edits; the distance is a metric.
 */
module EditDistance {
  import opened Sequences
  import opened Util

  function Min3(a: nat, b: nat, c: nat): nat {
    if a <= b && a <= c then a else if b <= c then b else c
  }

  function Cost(x: char, y: char): nat {
    if x == y then 0 else 1
  }

  /** The distance of the first `i` characters of `a` from the first `j` of `b`. */
  function Dist(a: string, b: string, i: nat, j: nat): nat
    requires i <= |a| && j <= |b|
    decreases i + j
  {
    if i == 0 then j
    else if j == 0 then i
    else Min3(Dist(a, b, i - 1, j) + 1, Dist(a, b, i, j - 1) + 1, Dist(a, b, i - 1, j - 1) + Cost(a[i - 1], b[j - 1]))
  }

  function Distance(a: string, b: string): nat {
    Dist(a, b, |a|, |b|)
  }

  /** The recurrence, one step of it. */
  lemma Recurs(a: string, b: string, i: nat, j: nat)
    requires 0 < i <= |a| && 0 < j <= |b|
    ensures Dist(a, b, i, j) ==
            Min3(Dist(a, b, i - 1, j) + 1, Dist(a, b, i, j - 1) + 1,
                 Dist(a, b, i - 1, j - 1) + Cost(a[i - 1], b[j - 1]))
  {
  }

  lemma SameStep(a: string, b: string, c: string, d: string, i: nat, j: nat)
    requires 0 < i <= |a| && 0 < j <= |b| && i <= |c| && j <= |d|
    requires a[i - 1] == c[i - 1] && b[j - 1] == d[j - 1]
    requires Dist(a, b, i - 1, j - 1) == Dist(c, d, i - 1, j - 1)
    requires Dist(a, b, i - 1, j) == Dist(c, d, i - 1, j) && Dist(a, b, i, j - 1) == Dist(c, d, i, j - 1)
    ensures Dist(a, b, i, j) == Dist(c, d, i, j)
  {
    Recurs(a, b, i, j);
    Recurs(c, d, i, j);
  }

  /** The texts may change places. */
  predicate Mirrored(a: string, b: string, i: nat, j: nat)
    requires i <= |a| && j <= |b|
  {
    Dist(a, b, i, j) == Dist(b, a, j, i)
  }

  lemma MirroredStep(a: string, b: string, i: nat, j: nat)
    requires 0 < i <= |a| && 0 < j <= |b|
    requires Mirrored(a, b, i - 1, j - 1) && Mirrored(a, b, i - 1, j) && Mirrored(a, b, i, j - 1)
    ensures Mirrored(a, b, i, j)
  {
    Recurs(a, b, i, j);
    Recurs(b, a, j, i);
  }

  /** Only the characters compared matter. */
  lemma {:induction false} DistIsLocal(a: string, b: string, c: string, d: string, i: nat, j: nat)
    requires i <= |a| && i <= |c| && j <= |b| && j <= |d|
    requires forall k :: 0 <= k < i ==> a[k] == c[k]
    requires forall k :: 0 <= k < j ==> b[k] == d[k]
    ensures Dist(a, b, i, j) == Dist(c, d, i, j)
    decreases i + j
  {
    if i > 0 && j > 0 {
      DistIsLocal(a, b, c, d, i - 1, j);
      DistIsLocal(a, b, c, d, i, j - 1);
      DistIsLocal(a, b, c, d, i - 1, j - 1);
      SameStep(a, b, c, d, i, j);
    }
  }

  // ---------------------------------------------------------------------- a metric

  lemma {:induction false} SymmetricAt(a: string, b: string, i: nat, j: nat)
    requires i <= |a| && j <= |b|
    ensures Mirrored(a, b, i, j)
    decreases i + j
  {
    if i > 0 && j > 0 {
      SymmetricAt(a, b, i - 1, j);
      SymmetricAt(a, b, i, j - 1);
      SymmetricAt(a, b, i - 1, j - 1);
      MirroredStep(a, b, i, j);
    }
  }

  lemma Symmetric(a: string, b: string)
    ensures Distance(a, b) == Distance(b, a)
  {
    SymmetricAt(a, b, |a|, |b|);
  }

  lemma {:induction false} AtMostLonger(a: string, b: string, i: nat, j: nat)
    requires i <= |a| && j <= |b|
    ensures Dist(a, b, i, j) <= Max(i, j)
    decreases i + j
  {
    if i > 0 && j > 0 {
      AtMostLonger(a, b, i - 1, j - 1);
    }
  }

  lemma {:induction false} AtLeastDifference(a: string, b: string, i: nat, j: nat)
    requires i <= |a| && j <= |b|
    ensures Dist(a, b, i, j) >= i - j
    decreases i + j
  {
    if i > 0 && j > 0 {
      AtLeastDifference(a, b, i - 1, j);
      AtLeastDifference(a, b, i, j - 1);
      AtLeastDifference(a, b, i - 1, j - 1);
    }
  }

  lemma Bounded(a: string, b: string, i: nat, j: nat)
    requires i <= |a| && j <= |b|
    ensures Dist(a, b, i, j) <= Max(i, j)
    ensures Dist(a, b, i, j) >= i - j && Dist(a, b, i, j) >= j - i
  {
    AtMostLonger(a, b, i, j);
    AtLeastDifference(a, b, i, j);
    SymmetricAt(a, b, i, j);
    AtLeastDifference(b, a, j, i);
  }

  lemma {:induction false} ZeroIffEqualAt(a: string, b: string, i: nat, j: nat)
    requires i <= |a| && j <= |b|
    ensures Dist(a, b, i, j) == 0 <==> i == j && forall k :: 0 <= k < i ==> a[k] == b[k]
    decreases i + j
  {
    if i > 0 && j > 0 {
      ZeroIffEqualAt(a, b, i - 1, j - 1);
    }
  }

  lemma ZeroIffEqual(a: string, b: string)
    ensures Distance(a, b) == 0 <==> a == b
  {
    ZeroIffEqualAt(a, b, |a|, |b|);
  }

  datatype Way = Left | Right | Both

  function Via(a: string, b: string, i: nat, j: nat, way: Way): nat
    requires 0 < i <= |a| && 0 < j <= |b|
  {
    match way
    case Left => Dist(a, b, i - 1, j) + 1
    case Right => Dist(a, b, i, j - 1) + 1
    case Both => Dist(a, b, i - 1, j - 1) + Cost(a[i - 1], b[j - 1])
  }

  /** The way that gives the distance. */
  function BestWay(a: string, b: string, i: nat, j: nat): (way: Way)
    requires 0 < i <= |a| && 0 < j <= |b|
  {
    if Dist(a, b, i, j) == Via(a, b, i, j, Left) then Left
    else if Dist(a, b, i, j) == Via(a, b, i, j, Right) then Right
    else Both
  }

  lemma BestWayIsBest(a: string, b: string, i: nat, j: nat)
    requires 0 < i <= |a| && 0 < j <= |b|
    ensures Dist(a, b, i, j) == Via(a, b, i, j, BestWay(a, b, i, j))
  {
  }

  lemma NoWayIsBetter(a: string, b: string, i: nat, j: nat, way: Way)
    requires 0 < i <= |a| && 0 < j <= |b|
    ensures Dist(a, b, i, j) <= Via(a, b, i, j, way)
  {
  }

  /** One character fewer lowers the distance by at most one. */
  lemma LeftIsClose(a: string, b: string, i: nat, j: nat)
    requires 0 < i <= |a| && j <= |b|
    ensures Dist(a, b, i, j) <= Dist(a, b, i - 1, j) + 1
  {
    if j > 0 {
      NoWayIsBetter(a, b, i, j, Left);
    }
  }

  lemma RightIsClose(a: string, b: string, i: nat, j: nat)
    requires i <= |a| && 0 < j <= |b|
    ensures Dist(a, b, i, j) <= Dist(a, b, i, j - 1) + 1
  {
    if i > 0 {
      NoWayIsBetter(a, b, i, j, Right);
    }
  }

  /** Going by way of `b` is never shorter. */
  lemma {:induction false} TriangleAt(a: string, b: string, c: string, i: nat, j: nat, k: nat)
    requires i <= |a| && j <= |b| && k <= |c|
    ensures Dist(a, c, i, k) <= Dist(a, b, i, j) + Dist(b, c, j, k)
    decreases i + j + k
  {
    if i == 0 || k == 0 || j == 0 {
      Bounded(a, b, i, j);
      Bounded(b, c, j, k);
      Bounded(a, c, i, k);
    } else {
      BestWayIsBest(a, b, i, j);
      BestWayIsBest(b, c, j, k);
      TriangleInside(a, b, c, i, j, k, BestWay(a, b, i, j), BestWay(b, c, j, k));
    }
  }

  lemma {:induction false} TriangleInside(a: string, b: string, c: string, i: nat, j: nat, k: nat, u: Way, v: Way)
    requires 0 < i <= |a| && 0 < j <= |b| && 0 < k <= |c|
    requires Dist(a, b, i, j) == Via(a, b, i, j, u) && Dist(b, c, j, k) == Via(b, c, j, k, v)
    ensures Dist(a, c, i, k) <= Dist(a, b, i, j) + Dist(b, c, j, k)
    decreases i + j + k, 1
  {
    if u == Left {
      TriangleAt(a, b, c, i - 1, j, k);
      LeftIsClose(a, c, i, k);
    } else if v == Right {
      TriangleAt(a, b, c, i, j, k - 1);
      RightIsClose(a, c, i, k);
    } else {
      TriangleShorter(a, b, c, i, j, k, u, v);
    }
  }

  /** The last character of `b` is passed over, or matched, on both ways. */
  lemma {:induction false} TriangleShorter(a: string, b: string, c: string, i: nat, j: nat, k: nat, u: Way, v: Way)
    requires 0 < i <= |a| && 0 < j <= |b| && 0 < k <= |c| && u != Left && v != Right
    ensures Dist(a, c, i, k) <= Via(a, b, i, j, u) + Via(b, c, j, k, v)
    decreases i + j + k, 0
  {
    var i', k' := if u == Both then i - 1 else i, if v == Both then k - 1 else k;
    TriangleAt(a, b, c, i', j - 1, k');
    if u == Both && v == Both {
      NoWayIsBetter(a, c, i, k, Both);
      CostTriangle(a[i - 1], b[j - 1], c[k - 1]);
    } else {
      Longer(a, c, i, k, i', k');
    }
  }

  lemma CostTriangle(x: char, y: char, z: char)
    ensures Cost(x, z) <= Cost(x, y) + Cost(y, z)
  {
  }

  /** What a last character can add to a distance. */
  lemma Longer(a: string, c: string, i: nat, k: nat, i': nat, k': nat)
    requires 0 < i <= |a| && 0 < k <= |c|
    requires (i' == i || i' == i - 1) && (k' == k || k' == k - 1)
    requires i' == i || k' == k
    ensures Dist(a, c, i, k) <= Dist(a, c, i', k') + (i - i') + (k - k')
  {
    if i' < i {
      LeftIsClose(a, c, i, k);
    } else if k' < k {
      RightIsClose(a, c, i, k);
    }
  }

  lemma Triangle(a: string, b: string, c: string)
    ensures Distance(a, c) <= Distance(a, b) + Distance(b, c)
  {
    TriangleAt(a, b, c, |a|, |b|, |c|);
  }

  // ------------------------------------------------------------- the fewest edits

  datatype Edit = Insert(at: nat, c: char) | Delete(at: nat) | Replace(at: nat, c: char)

  /** The text after an edit; None when its place does not exist. */
  function Edited(e: Edit, s: string): Option<string> {
    if e.Insert? then if e.at <= |s| then Some(s[..e.at] + [e.c] + s[e.at..]) else None
    else if e.at >= |s| then None
    else if e.Delete? then Some(s[..e.at] + s[e.at + 1..])
    else Some(s[..e.at] + [e.c] + s[e.at + 1..])
  }

  function EditedAll(es: seq<Edit>, s: string): Option<string>
    decreases |es|
  {
    if es == [] then Some(s) else
    var t := Edited(es[0], s);
    if t.None? then None else EditedAll(es[1..], t.value)
  }

  /** A common ending never makes two texts more different. */
  lemma {:induction false} CommonEnding(p: string, q: string, s: string, n: nat)
    requires n <= |s|
    ensures Dist(p + s, q + s, |p| + n, |q| + n) <= Distance(p, q)
    decreases n
  {
    if n == 0 {
      DistIsLocal(p + s, q + s, p, q, |p|, |q|);
    } else {
      CommonEnding(p, q, s, n - 1);
      assert (p + s)[|p| + n - 1] == s[n - 1] == (q + s)[|q| + n - 1];
      if |p| + n - 1 == 0 || |q| + n - 1 == 0 {
        Bounded(p + s, q + s, |p| + n, |q| + n);
      }
    }
  }

  lemma WithEnding(p: string, q: string, s: string)
    ensures Distance(p + s, q + s) <= Distance(p, q)
  {
    CommonEnding(p, q, s, |s|);
  }

  lemma OneMore(p: string, c: char)
    ensures Distance(p, p + [c]) <= 1 && Distance(p + [c], p) <= 1
  {
    var q := p + [c];
    ZeroIffEqualAt(p, q, |p|, |p|);
    Symmetric(p, q);
  }

  lemma OneOther(p: string, c: char, d: char)
    ensures Distance(p + [c], p + [d]) <= 1
  {
    ZeroIffEqualAt(p + [c], p + [d], |p|, |p|);
  }

  lemma OneEditIsOne(e: Edit, s: string)
    requires Edited(e, s).Some?
    ensures Distance(s, Edited(e, s).value) <= 1
  {
    var p := s[..e.at];
    if e.Insert? {
      OneMore(p, e.c);
      WithEnding(p, p + [e.c], s[e.at..]);
      assert s == p + s[e.at..];
    } else {
      var x, rest := s[e.at], s[e.at + 1..];
      assert s == (p + [x]) + rest;
      if e.Delete? {
        OneMore(p, x);
        WithEnding(p + [x], p, rest);
      } else {
        OneOther(p, x, e.c);
        WithEnding(p + [x], p + [e.c], rest);
      }
    }
  }

  /** No sequence of edits is shorter than the distance. */
  lemma {:induction false} NoFewerEdits(es: seq<Edit>, a: string, b: string)
    requires EditedAll(es, a) == Some(b)
    ensures Distance(a, b) <= |es|
    decreases |es|
  {
    if es == [] {
      ZeroIffEqual(a, b);
    } else {
      var t := Edited(es[0], a).value;
      NoFewerEdits(es[1..], t, b);
      OneEditIsOne(es[0], a);
      Triangle(a, t, b);
    }
  }

  lemma {:induction false} EditsAppend(es: seq<Edit>, fs: seq<Edit>, s: string)
    requires EditedAll(es, s).Some?
    ensures EditedAll(es + fs, s) == EditedAll(fs, EditedAll(es, s).value)
    decreases |es|
  {
    if es == [] {
      assert es + fs == fs;
    } else {
      assert (es + fs)[1..] == es[1..] + fs;
      EditsAppend(es[1..], fs, Edited(es[0], s).value);
    }
  }

  lemma EditOfFront(e: Edit, s: string, c: char)
    requires Edited(e, s).Some?
    ensures Edited(e, s + [c]) == Some(Edited(e, s).value + [c])
  {
    var front := (s + [c])[..e.at];
    assert front == s[..e.at];
    if e.Insert? {
      assert (s + [c])[e.at..] == s[e.at..] + [c];
      assert front + [e.c] + (s[e.at..] + [c]) == (front + [e.c] + s[e.at..]) + [c];
    } else {
      var rest := s[e.at + 1..];
      assert (s + [c])[e.at + 1..] == rest + [c];
      assert front + (rest + [c]) == (front + rest) + [c];
      if e.Replace? {
        assert front + [e.c] + (rest + [c]) == (front + [e.c] + rest) + [c];
      }
    }
  }

  /** Edits of the front of a text leave its end alone. */
  lemma {:induction false} EditsOfFront(es: seq<Edit>, s: string, c: char)
    requires EditedAll(es, s).Some?
    ensures EditedAll(es, s + [c]) == Some(EditedAll(es, s).value + [c])
    decreases |es|
  {
    if es != [] {
      EditOfFront(es[0], s, c);
      EditsOfFront(es[1..], Edited(es[0], s).value, c);
    }
  }

  lemma LastEdit(es: seq<Edit>, e: Edit, s: string, t: string, u: string)
    requires EditedAll(es, s) == Some(t) && Edited(e, t) == Some(u)
    ensures EditedAll(es + [e], s) == Some(u)
  {
    EditsAppend(es, [e], s);
    assert [e][1..] == [];
  }

  /** How the script deals with the last characters. */
  function LastWay(a: string, b: string, i: nat, j: nat): (way: Way)
    requires i <= |a| && j <= |b| && i + j > 0
    ensures (way != Right ==> i > 0) && (way != Left ==> j > 0)
  {
    if j == 0 then Left else if i == 0 then Right else BestWay(a, b, i, j)
  }

  /** Edits that make the first `i` characters of `a` into the first `j` of `b`. */
  function Script(a: string, b: string, i: nat, j: nat): seq<Edit>
    requires i <= |a| && j <= |b|
    decreases i + j
  {
    if i == 0 && j == 0 then [] else
    match LastWay(a, b, i, j)
    case Left => [Delete(i - 1)] + Script(a, b, i - 1, j)
    case Right => Script(a, b, i, j - 1) + [Insert(j - 1, b[j - 1])]
    case Both => Script(a, b, i - 1, j - 1) + if a[i - 1] == b[j - 1] then [] else [Replace(j - 1, b[j - 1])]
  }

  /** `es` makes the one front into the other. */
  predicate Makes(es: seq<Edit>, a: string, i: nat, b: string, j: nat)
    requires i <= |a| && j <= |b|
  {
    EditedAll(es, a[..i]) == Some(b[..j])
  }

  lemma DeleteFirst(es: seq<Edit>, a: string, i: nat, b: string, j: nat)
    requires 0 < i <= |a| && j <= |b| && Makes(es, a, i - 1, b, j)
    ensures Makes([Delete(i - 1)] + es, a, i, b, j)
  {
    var s := a[..i];
    assert s[..i - 1] + s[i..] == a[..i - 1];
    assert ([Delete(i - 1)] + es)[1..] == es;
  }

  lemma InsertLast(es: seq<Edit>, a: string, i: nat, b: string, j: nat)
    requires i <= |a| && 0 < j <= |b| && Makes(es, a, i, b, j - 1)
    ensures Makes(es + [Insert(j - 1, b[j - 1])], a, i, b, j)
  {
    var t := b[..j - 1];
    assert t[..j - 1] + [b[j - 1]] + t[j - 1..] == b[..j];
    LastEdit(es, Insert(j - 1, b[j - 1]), a[..i], t, b[..j]);
  }

  lemma ReplaceLast(es: seq<Edit>, a: string, i: nat, b: string, j: nat)
    requires 0 < i <= |a| && 0 < j <= |b| && Makes(es, a, i - 1, b, j - 1)
    ensures a[i - 1] == b[j - 1] ==> Makes(es, a, i, b, j)
    ensures Makes(es + [Replace(j - 1, b[j - 1])], a, i, b, j)
  {
    EditsOfFront(es, a[..i - 1], a[i - 1]);
    assert a[..i] == a[..i - 1] + [a[i - 1]] && b[..j] == b[..j - 1] + [b[j - 1]];
    var t := b[..j - 1] + [a[i - 1]];
    assert t[..j - 1] + [b[j - 1]] + t[j..] == b[..j];
    LastEdit(es, Replace(j - 1, b[j - 1]), a[..i], t, b[..j]);
  }

  /** The script makes the one front into the other with as many edits as their distance. */
  predicate Works(a: string, b: string, i: nat, j: nat)
    requires i <= |a| && j <= |b|
  {
    |Script(a, b, i, j)| == Dist(a, b, i, j) && Makes(Script(a, b, i, j), a, i, b, j)
  }

  lemma {:induction false} ScriptDeletes(a: string, b: string, i: nat, j: nat)
    requires 0 < i <= |a| && j <= |b| && LastWay(a, b, i, j) == Left
    ensures Works(a, b, i, j)
    decreases i + j, 0
  {
    ScriptWorks(a, b, i - 1, j);
    DeleteFirst(Script(a, b, i - 1, j), a, i, b, j);
    if j > 0 {
      BestWayIsBest(a, b, i, j);
    }
  }

  lemma {:induction false} ScriptInserts(a: string, b: string, i: nat, j: nat)
    requires i <= |a| && 0 < j <= |b| && LastWay(a, b, i, j) == Right
    ensures Works(a, b, i, j)
    decreases i + j, 0
  {
    ScriptWorks(a, b, i, j - 1);
    InsertLast(Script(a, b, i, j - 1), a, i, b, j);
    if i > 0 {
      BestWayIsBest(a, b, i, j);
    }
  }

  lemma {:induction false} ScriptReplaces(a: string, b: string, i: nat, j: nat)
    requires 0 < i <= |a| && 0 < j <= |b| && LastWay(a, b, i, j) == Both
    ensures Works(a, b, i, j)
    decreases i + j, 0
  {
    ScriptWorks(a, b, i - 1, j - 1);
    BestWayIsBest(a, b, i, j);
    ReplaceLast(Script(a, b, i - 1, j - 1), a, i, b, j);
    Nothing(Script(a, b, i - 1, j - 1));
  }

  lemma NothingToEdit(a: string, b: string)
    ensures Works(a, b, 0, 0)
  {
    assert a[..0] == b[..0];
  }

  /** As many edits as the distance are enough. */
  lemma {:induction false} ScriptWorks(a: string, b: string, i: nat, j: nat)
    requires i <= |a| && j <= |b|
    ensures Works(a, b, i, j)
    decreases i + j, 1
  {
    if i == 0 && j == 0 {
      NothingToEdit(a, b);
    } else {
      match LastWay(a, b, i, j)
      case Left => ScriptDeletes(a, b, i, j);
      case Right => ScriptInserts(a, b, i, j);
      case Both => ScriptReplaces(a, b, i, j);
    }
  }

  /** The distance is the least number of edits that make the one text into the other. */
  lemma DistanceIsFewestEdits(a: string, b: string)
    ensures exists es :: |es| == Distance(a, b) && EditedAll(es, a) == Some(b)
    ensures forall es :: EditedAll(es, a) == Some(b) ==> Distance(a, b) <= |es|
  {
    ScriptWorks(a, b, |a|, |b|);
    assert a[..|a|] == a && b[..|b|] == b;
    forall es | EditedAll(es, a) == Some(b) ensures Distance(a, b) <= |es| {
      NoFewerEdits(es, a, b);
    }
  }

  // ------------------------------------------------------------------ the two rows

  /** A row of the table: the distances of `i` characters from the prefixes of `b`. */
  function Row(a: string, b: string, i: nat): seq<int>
    requires i <= |a|
  {
    seq(|b| + 1, j requires 0 <= j <= |b| => Dist(a, b, i, j))
  }

  /** `next` continues the table after `row`, for the character `x`. */
  predicate Follows(row: seq<int>, next: seq<int>, x: char, b: string) {
    && |row| == |next| == |b| + 1
    && forall j :: 0 < j <= |b| ==>
         next[j] == Min(Min(row[j] + 1, next[j - 1] + 1), row[j - 1] + if x == b[j - 1] then 0 else 1)
  }

  lemma RowsFollow(a: string, b: string, i: nat)
    requires 0 < i <= |a|
    ensures Follows(Row(a, b, i - 1), Row(a, b, i), a[i - 1], b)
    ensures Row(a, b, i)[0] == i
  {
  }

  lemma FirstRow(a: string, b: string)
    ensures Row(a, b, 0) == seq(|b| + 1, j => j)
  {
  }

  method Levenshtein(a0: string, b0: string) returns (d: nat)
    ensures d == Distance(a0, b0)
  {
    var a, b := a0, b0;
    if |a| < |b| {
      a, b := b, a;
      Symmetric(a0, b0);
    }
    var last := LastRow(a, b);
    d := last[..][|b|];
  }

  /** The rows of the table, two at a time. */
  method LastRow(a: string, b: string) returns (prev: array<int>)
    ensures prev[..] == Row(a, b, |a|)
  {
    prev := new int[|b| + 1];
    var cur := new int[|b| + 1];
    CountUp(prev);
    FirstRow(a, b);
    assert prev[..] == Row(a, b, 0);
    var i := 1;
    while i <= |a|
      invariant 1 <= i <= |a| + 1
      invariant prev != cur && prev.Length == cur.Length == |b| + 1
      invariant fresh(prev) && fresh(cur)
      invariant prev[..] == Row(a, b, i - 1)
    {
      RowsFollow(a, b, i);
      FillRow(a[i - 1], b, i, prev, cur, Row(a, b, i));
      prev, cur := cur, prev;
      i := i + 1;
    }
  }

  /** The row of the empty text. */
  method CountUp(row: array<int>)
    modifies row
    ensures forall k :: 0 <= k < row.Length ==> row[k] == k
  {
    var j := 0;
    while j < row.Length
      invariant 0 <= j <= row.Length
      invariant forall k :: 0 <= k < j ==> row[k] == k
    {
      row[j] := j;
      j := j + 1;
    }
  }

  /** Fills the row that follows `prev`. */
  method FillRow(x: char, b: string, i: nat, prev: array<int>, cur: array<int>, ghost next: seq<int>)
    requires prev != cur && prev.Length == cur.Length == |b| + 1
    requires Follows(prev[..], next, x, b) && next[0] == i
    modifies cur
    ensures cur[..] == next
  {
    ghost var was := prev[..];
    cur[0] := i;
    var j := 1;
    while j <= |b|
      invariant 1 <= j <= |b| + 1 && prev[..] == was
      invariant cur[..j] == next[..j]
    {
      var cost := 1;
      if x == b[j - 1] {
        cost := 0;
      }
      assert cur[j - 1] == cur[..j][j - 1] == next[j - 1] && prev[j] == was[j] && prev[j - 1] == was[j - 1];
      cur[j] := Min(Min(prev[j] + 1, cur[j - 1] + 1), prev[j - 1] + cost);
      j := j + 1;
    }
  }

  // ------------------------------------------------------------------- similarity

  function Similarity(a: string, b: string): real {
    if a == "" && b == "" then 1.0 else 1.0 - Distance(a, b) as real / Max(|a|, |b|) as real
  }

  lemma ShareOf(d: nat, m: nat)
    requires 0 < m && d <= m
    ensures 0.0 <= d as real / m as real <= 1.0
    ensures d as real / m as real == 0.0 <==> d == 0
  {
    var q := d as real / m as real;
    assert q * m as real == d as real;
  }

  /** The similarity lies between 0 and 1, is 1 for equal texts only, and does not depend on
      the order of the texts. */
  lemma SimilarityIsAShare(a: string, b: string)
    ensures 0.0 <= Similarity(a, b) <= 1.0
    ensures Similarity(a, b) == 1.0 <==> a == b
    ensures Similarity(a, b) == Similarity(b, a)
  {
    Symmetric(a, b);
    if a != "" || b != "" {
      Bounded(a, b, |a|, |b|);
      ZeroIffEqual(a, b);
      ShareOf(Distance(a, b), Max(|a|, |b|));
    }
  }

  /** No other edits that make the one text into the other are fewer. */
  ghost predicate IsShortest(es: seq<Edit>, a: string, b: string) {
    EditedAll(es, a) == Some(b) && forall other :: EditedAll(other, a) == Some(b) ==> |es| <= |other|
  }

  lemma ShortestIsDistance(es: seq<Edit>, a: string, b: string)
    requires IsShortest(es, a, b)
    ensures |es| == Distance(a, b)
  {
    DistanceIsFewestEdits(a, b);
    var best :| |best| == Distance(a, b) && EditedAll(best, a) == Some(b);
  }

  lemma ShareLeft(share: real, x: real, y: real)
    requires x > 0.0 && share == y / x
    ensures (1.0 - share) * x == x - y
  {
    assert share * x == y;
  }

  lemma SimilarityOfDistance(a: string, b: string, longer: nat)
    requires longer == (if |a| >= |b| then |a| else |b|) && longer > 0
    ensures Similarity(a, b) * longer as real == longer as real - Distance(a, b) as real
  {
    var share := Distance(a, b) as real / longer as real;
    ShareLeft(share, longer as real, Distance(a, b) as real);
    assert Similarity(a, b) == 1.0 - share;
  }

  /** The similarity is the share of the longer text that the fewest edits leave. */
  lemma SimilarityByEdits(a: string, b: string, es: seq<Edit>, longer: nat)
    requires IsShortest(es, a, b) && longer == if |a| >= |b| then |a| else |b|
    ensures longer == 0 ==> Similarity(a, b) == 1.0
    ensures longer > 0 ==> Similarity(a, b) * longer as real == longer as real - |es| as real
  {
    ShortestIsDistance(es, a, b);
    if longer > 0 {
      SimilarityOfDistance(a, b, longer);
    }
  }

  method ComputeSimilarity(a: string, b: string) returns (s: real)
    ensures s == Similarity(a, b)
  {
    if |a| == 0 && |b| == 0 {
      return 1.0;
    }
    var d := Levenshtein(a, b);
    s := 1.0 - d as real / Max(|a|, |b|) as real;
  }
}
