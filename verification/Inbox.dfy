/**
 The inbox of a running turn (internal/agent/steer.go): messages that arrive while the
 turn runs are queued, and spliced into the transcript of its next model call.
 */
module Inbox {
  import opened Util
  import opened Sequences
  import opened Transcript

  /** A message accepted into a running turn, and the row it is already stored as. */
  datatype Late = Late(text: string, row: nat)

  /** A delivered message, and where in the transcript the model first saw it. */
  datatype Placed = Placed(at: nat, late: Late)

  datatype Box = Box(closed: bool, pending: seq<Late>, placed: seq<Placed>, taken: nat)

  const NEW_BOX := Box(false, [], [], 0)

  function Shown(l: Late): Msg {
    Noticed(Steering, l.text)
  }

  function Pushed(b: Box, m: Late): Box {
    if b.closed then b else b.(pending := b.pending + [m], taken := b.taken + 1)
  }

  function Closed(b: Box): Box {
    b.(closed := true, pending := [])
  }

  function PlacedAt(late: seq<Late>, n: nat): seq<Placed> {
    seq(|late|, k requires 0 <= k < |late| => Placed(n, late[k]))
  }

  /** Everything queued is placed behind a transcript of `n` messages. */
  function Delivered(b: Box, n: nat): Box {
    b.(placed := b.placed + PlacedAt(b.pending, n), pending := [])
  }

  /** A message of the spliced transcript: the turn's own, or a late one. */
  datatype Item = Own(msg: Msg) | Steered(late: Late)

  /** The transcript from position `i` on, with the placed messages put in front of the
      first position they do not lie behind. */
  function Mixed(own: seq<Msg>, placed: seq<Placed>, i: nat): seq<Item>
    requires i <= |own|
    decreases |own| - i + |placed|
  {
    if placed != [] && placed[0].at <= i then [Steered(placed[0].late)] + Mixed(own, placed[1..], i)
    else if i < |own| then [Own(own[i])] + Mixed(own, placed, i + 1)
    else []
  }

  function Plain(item: Item): Msg {
    match item
    case Own(m) => m
    case Steered(l) => Shown(l)
  }

  function Plains(items: seq<Item>): seq<Msg> {
    if items == [] then [] else [Plain(items[0])] + Plains(items[1..])
  }

  /** The transcript with the placed messages spliced in. */
  function Spliced(own: seq<Msg>, placed: seq<Placed>): seq<Msg> {
    Plains(Mixed(own, placed, 0))
  }

  lemma {:induction false} PlainsAppend(a: seq<Item>, b: seq<Item>)
    ensures Plains(a + b) == Plains(a) + Plains(b)
  {
    if a == [] {
      assert a + b == b;
    } else {
      assert (a + b)[1..] == a[1..] + b;
      PlainsAppend(a[1..], b);
    }
  }

  // -------------------------------------------------------- deleting what was spliced

  function OwnOf(items: seq<Item>): seq<Msg> {
    if items == [] then [] else (if items[0].Own? then [items[0].msg] else []) + OwnOf(items[1..])
  }

  function LateOf(items: seq<Item>): seq<Late> {
    if items == [] then [] else (if items[0].Steered? then [items[0].late] else []) + LateOf(items[1..])
  }

  function LateIn(placed: seq<Placed>): seq<Late> {
    seq(|placed|, k requires 0 <= k < |placed| => placed[k].late)
  }

  predicate Within(placed: seq<Placed>, n: nat) {
    forall k :: 0 <= k < |placed| ==> placed[k].at <= n
  }

  /** Deleting the late messages gives back the transcript. */
  lemma {:induction false} DeletingLateOnes(own: seq<Msg>, placed: seq<Placed>, i: nat)
    requires i <= |own|
    ensures OwnOf(Mixed(own, placed, i)) == own[i..]
    decreases |own| - i + |placed|
  {
    if placed != [] && placed[0].at <= i {
      DeletingLateOnes(own, placed[1..], i);
      assert Mixed(own, placed, i)[1..] == Mixed(own, placed[1..], i);
    } else if i < |own| {
      DeletingLateOnes(own, placed, i + 1);
      assert Mixed(own, placed, i)[1..] == Mixed(own, placed, i + 1);
      assert own[i..] == [own[i]] + own[i + 1..];
    }
  }

  /** Every placed message occurs exactly once and in order, unless the transcript is too
      short to reach the first that is left out. */
  lemma {:induction false} EveryLateOne(own: seq<Msg>, placed: seq<Placed>, i: nat)
    requires i <= |own|
    ensures LateOf(Mixed(own, placed, i)) == LateIn(placed) <==> Within(placed, |own|)
    ensures |LateOf(Mixed(own, placed, i))| <= |placed|
    decreases |own| - i + |placed|
  {
    if placed != [] && placed[0].at <= i {
      var rest := placed[1..];
      EveryLateOne(own, rest, i);
      assert Mixed(own, placed, i)[1..] == Mixed(own, rest, i);
      assert LateIn(placed) == [placed[0].late] + LateIn(rest);
      assert LateIn(placed)[1..] == LateIn(rest);
      assert LateOf(Mixed(own, placed, i)) == [placed[0].late] + LateOf(Mixed(own, rest, i));
      assert LateOf(Mixed(own, placed, i))[1..] == LateOf(Mixed(own, rest, i));
      assert placed == [placed[0]] + rest;
    } else if i < |own| {
      EveryLateOne(own, placed, i + 1);
      assert Mixed(own, placed, i)[1..] == Mixed(own, placed, i + 1);
    } else if placed != [] {
      assert |LateIn(placed)| > 0;
    }
  }

  // ------------------------------------------------------------------ prefix stability

  /** Messages placed later lie behind everything the model had seen. */
  predicate Behind(placed: seq<Placed>, n: nat) {
    forall k :: 0 <= k < |placed| ==> placed[k].at >= n
  }

  /** When the transcript grows at its end and new messages are placed behind what was
      there, what the model has been shown stays where it was. */
  lemma {:induction false} MixedIsStable(own: seq<Msg>, more: seq<Msg>, placed: seq<Placed>, later: seq<Placed>, i: nat)
    requires i <= |own| && Within(placed, |own|) && Behind(later, |own|)
    ensures Mixed(own, placed, i) <= Mixed(own + more, placed + later, i)
    decreases |own| - i + |placed|
  {
    var own', placed' := own + more, placed + later;
    if placed != [] && placed[0].at <= i {
      MixedIsStable(own, more, placed[1..], later, i);
      assert placed'[1..] == placed[1..] + later;
    } else if i < |own| {
      if placed == [] {
        assert placed' == later;
      }
      MixedIsStable(own, more, placed, later, i + 1);
    }
  }

  lemma {:induction false} PlainsOfPrefix(a: seq<Item>, b: seq<Item>)
    requires a <= b
    ensures Plains(a) <= Plains(b)
  {
    assert b == a + b[|a|..];
    PlainsAppend(a, b[|a|..]);
  }

  lemma SplicedIsStable(own: seq<Msg>, more: seq<Msg>, placed: seq<Placed>, later: seq<Placed>)
    requires Within(placed, |own|) && Behind(later, |own|)
    ensures Spliced(own, placed) <= Spliced(own + more, placed + later)
  {
    MixedIsStable(own, more, placed, later, 0);
    PlainsOfPrefix(Mixed(own, placed, 0), Mixed(own + more, placed + later, 0));
  }

  // -------------------------------------------------------------------- well-formedness

  /** No placed message stands between a call and its result. */
  predicate OnBoundaries(own: seq<Msg>, placed: seq<Placed>) {
    forall k :: 0 <= k < |placed| ==> placed[k].at <= |own| && (placed[k].at < |own| ==> !own[placed[k].at].Tool?)
  }

  lemma OneLate(own: seq<Msg>, placed: seq<Placed>, i: nat)
    requires i <= |own| && placed != [] && placed[0].at <= i
    ensures Plains(Mixed(own, placed, i)) == [Shown(placed[0].late)] + Plains(Mixed(own, placed[1..], i))
  {
    assert Mixed(own, placed, i)[1..] == Mixed(own, placed[1..], i);
  }

  lemma {:induction false} SpliceAtFirst(own: seq<Msg>, placed: seq<Placed>, i: nat, a: nat)
    requires i <= a <= |own| && placed != []
    requires a == Max(i, placed[0].at)
    ensures Plains(Mixed(own, placed, i)) == own[i..a] + ([Shown(placed[0].late)] + Plains(Mixed(own, placed[1..], a)))
    decreases a - i
  {
    var tail := [Shown(placed[0].late)] + Plains(Mixed(own, placed[1..], a));
    if i == a {
      OneLate(own, placed, i);
      assert own[i..a] + tail == tail;
    } else {
      SpliceAtFirst(own, placed, i + 1, a);
      assert own[i..a] + tail == [own[i]] + (own[i + 1..a] + tail);
    }
  }

  lemma {:induction false} NothingPlaced(own: seq<Msg>, i: nat)
    requires i <= |own|
    ensures Plains(Mixed(own, [], i)) == own[i..]
    decreases |own| - i
  {
    if i < |own| {
      NothingPlaced(own, i + 1);
      assert own[i..] == [own[i]] + own[i + 1..];
    }
  }

  lemma BetweenBoundaries(own: seq<Msg>, i: nat, a: nat)
    requires WellFormed(own) && i <= a <= |own|
    requires i < |own| ==> !own[i].Tool?
    requires a < |own| ==> !own[a].Tool?
    ensures WellFormed(own[i..a])
  {
    WellFormedSplit(own, a);
    if i < a {
      assert own[..a][i] == own[i];
      WellFormedSplit(own[..a], i);
      assert own[..a][i..] == own[i..a];
    } else {
      assert own[i..a] == [];
    }
  }

  lemma {:induction false} MixedIsWellFormed(own: seq<Msg>, placed: seq<Placed>, i: nat)
    requires WellFormed(own) && OnBoundaries(own, placed)
    requires i <= |own| && (i < |own| ==> !own[i].Tool?)
    ensures WellFormed(Plains(Mixed(own, placed, i)))
    decreases |placed|
  {
    if placed == [] {
      NothingPlaced(own, i);
      WellFormedSplit(own, i);
    } else {
      var a := Max(i, placed[0].at);
      SpliceAtFirst(own, placed, i, a);
      BetweenBoundaries(own, i, a);
      assert OnBoundaries(own, placed[1..]);
      MixedIsWellFormed(own, placed[1..], a);
      var rest := Plains(Mixed(own, placed[1..], a));
      WellFormedSingle(Shown(placed[0].late));
      WellFormedAppend([Shown(placed[0].late)], rest);
      WellFormedAppend(own[i..a], [Shown(placed[0].late)] + rest);
    }
  }

  /** A splice between whole groups keeps the transcript acceptable to a provider. */
  lemma SplicedIsWellFormed(own: seq<Msg>, placed: seq<Placed>)
    requires WellFormed(own) && OnBoundaries(own, placed)
    ensures WellFormed(Spliced(own, placed))
  {
    BeginsWell(own);
    MixedIsWellFormed(own, placed, 0);
  }

  // ------------------------------------------------------------------------ the object

  class Steerer {
    var closed: bool
    var pending: seq<Late>
    var placed: seq<Placed>
    var taken: nat  // messages ever accepted

    ghost function State(): Box
      reads this
    {
      Box(closed, pending, placed, taken)
    }

    constructor ()
      ensures State() == NEW_BOX
    {
      closed, pending, placed, taken := false, [], [], 0;
    }

    /** False once the turn has stopped reading its inbox. */
    method Push(m: Late) returns (accepted: bool)
      modifies this
      ensures accepted == !old(closed)
      ensures State() == Pushed(old(State()), m)
    {
      if closed {
        return false;
      }
      pending := pending + [m];
      taken := taken + 1;
      return true;
    }

    /** Stops accepting; what the model never got to see is handed back. */
    method Close() returns (left: seq<Late>)
      modifies this
      ensures left == old(pending) && State() == Closed(old(State()))
    {
      closed := true;
      left := pending;
      pending := [];
    }

    /** The transcript for the next model call. */
    method Apply(own: seq<Msg>) returns (out: seq<Msg>)
      modifies this`pending, this`placed
      ensures State() == Delivered(old(State()), |own|)
      ensures out == Spliced(own, placed)
    {
      PlaceAll(|own|);
      if |placed| == 0 {
        NothingPlaced(own, 0);
        return own;
      }
      out := [];
      var i, j := 0, 0;
      assert placed[0..] == placed;
      while i < |own|
        invariant 0 <= i <= |own| && 0 <= j <= |placed|
        invariant State() == Delivered(old(State()), |own|)
        invariant out + Plains(Mixed(own, placed[j..], i)) == Spliced(own, placed)
      {
        out, j := SpliceHere(own, i, j, out);
        Rejoin(out, [own[i]], Plains(Mixed(own, placed[j..], i + 1)));
        out := out + [own[i]];
        i := i + 1;
      }
      out, j := SpliceHere(own, i, j, out);
      assert Mixed(own, placed[j..], i) == [];
      Nothing(out);
    }

    /** The placed messages that belong in front of position `i`. */
    method SpliceHere(own: seq<Msg>, i: nat, j0: nat, out0: seq<Msg>) returns (out: seq<Msg>, j: nat)
      requires i <= |own| && j0 <= |placed|
      ensures j0 <= j <= |placed|
      ensures j < |placed| ==> placed[j].at > i
      ensures out + Plains(Mixed(own, placed[j..], i)) == out0 + Plains(Mixed(own, placed[j0..], i))
    {
      out, j := out0, j0;
      while j < |placed| && placed[j].at <= i
        invariant j0 <= j <= |placed|
        invariant out + Plains(Mixed(own, placed[j..], i)) == out0 + Plains(Mixed(own, placed[j0..], i))
      {
        DropDrop(placed, j, 1);
        OneLate(own, placed[j..], i);
        var m := Shown(placed[j].late);
        Rejoin(out, [m], Plains(Mixed(own, placed[j + 1..], i)));
        out := out + [m];
        j := j + 1;
      }
    }

    method PlaceAll(n: nat)
      modifies this`pending, this`placed
      ensures State() == Delivered(old(State()), n)
    {
      var i := 0;
      while i < |pending|
        invariant 0 <= i <= |pending| && pending == old(pending)
        invariant placed == old(placed) + PlacedAt(pending[..i], n)
      {
        assert PlacedAt(pending[..i + 1], n) == PlacedAt(pending[..i], n) + [Placed(n, pending[i])];
        placed := placed + [Placed(n, pending[i])];
        i := i + 1;
      }
      assert pending[..|pending|] == pending;
      pending := [];
    }
  }
}
