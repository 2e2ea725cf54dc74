/**
 How long a run of the turn protocol can be: without new requests only a bounded number of
 steps is left, apart from the model calls of running turns, and every request that does
 not give up can be finished.
 */
module TurnProgress {
  import opened Util
  import opened Sequences
  import opened Inbox
  import opened TurnProtocol

  // -------------------------------------------------------------------- work to be done

  /** The turn has accepted messages that no model call has shown; they may need a follow-up. */
  predicate HasLate(s: Sys, t: nat) {
    t < |s.turns| && (s.turns[t].left != [] || s.turns[t].box.pending != [])
  }

  /** How many turns may still be started for a request: its own, or a follow-up. */
  function TurnsDue(s: Sys, j: nat): nat
    requires j < |s.requests|
  {
    match s.requests[j].pc
    case Finished(_) => 0
    case Owning(t, _) => if HasLate(s, t) then 1 else 0
    case _ => 1
  }

  function PhaseRank(phase: Phase): nat {
    match phase
    case Opening => 8
    case Loading => 7
    case Running => 6
    case Storing => 5
    case Returned => 4
    case Releasing => 3
    case Signalling => 2
    case Resuming => 1
  }

  function PcRank(r: Request): nat {
    match r.pc
    case Arriving => 3
    case Facing(_) => if r.row.None? then 2 else 1
    case _ => 0
  }

  /** What a request may cost when there will be at most `n` turns: it waits for each at
      most once. A follow-up costs less than the price of the message it follows up. */
  function Price(n: nat): nat {
    4 * n + 20
  }

  function Due(s: Sys, j: nat, n: nat): nat
    requires j < |s.requests|
  {
    var r := s.requests[j];
    match r.pc
    case Finished(_) => 0
    case Owning(t, phase) => (if HasLate(s, t) then Price(n) + Price(n) else Price(n)) + PhaseRank(phase)
    case _ => Price(n) + (if |r.waits| <= n then 4 * (n - |r.waits|) else 0) + PcRank(r) + 10
  }

  function Total(xs: seq<nat>): nat {
    if xs == [] then 0 else Total(xs[..|xs| - 1]) + xs[|xs| - 1]
  }

  function AllTurnsDue(s: Sys): seq<nat> {
    seq(|s.requests|, j requires 0 <= j < |s.requests| => TurnsDue(s, j))
  }

  function Dues(s: Sys, n: nat): seq<nat> {
    seq(|s.requests|, j requires 0 <= j < |s.requests| => Due(s, j, n))
  }

  /** There will never be more turns than this. */
  function MostTurns(s: Sys): nat {
    |s.turns| + Total(AllTurnsDue(s))
  }

  /** A bound on the steps that are left. */
  function Work(s: Sys): nat {
    Total(Dues(s, MostTurns(s)))
  }

  lemma TotalSnoc(xs: seq<nat>, x: nat)
    ensures Total(xs + [x]) == Total(xs) + x
  {
    Snoc(xs, x);
  }

  lemma {:induction false} TotalOfOther(xs: seq<nat>, ys: seq<nat>, i: nat)
    requires |xs| == |ys| && i < |xs| && forall j :: 0 <= j < |xs| && j != i ==> xs[j] == ys[j]
    ensures Total(ys) + xs[i] == Total(xs) + ys[i]
  {
    var n := |xs| - 1;
    if i == n {
      assert xs[..n] == ys[..n];
    } else {
      TotalOfOther(xs[..n], ys[..n], i);
    }
  }

  lemma {:induction false} TotalGrows(xs: seq<nat>, ys: seq<nat>)
    requires |xs| == |ys| && forall j :: 0 <= j < |xs| ==> xs[j] <= ys[j]
    ensures Total(xs) <= Total(ys)
  {
    if xs != [] {
      TotalGrows(xs[..|xs| - 1], ys[..|ys| - 1]);
    }
  }

  lemma DuesGrow(s: Sys, m: nat, n: nat)
    requires m <= n
    ensures Total(Dues(s, m)) <= Total(Dues(s, n))
  {
    TotalGrows(Dues(s, m), Dues(s, n));
  }

  // ---------------------------------------------------------------- what a step changes

  predicate SameEntry(s: Sys, s': Sys, j: nat)
    requires j < |s.requests| && j < |s'.requests|
  {
    s'.requests[j] == s.requests[j] &&
    (s.requests[j].pc.Owning? ==> HasLate(s', s.requests[j].pc.turn) == HasLate(s, s.requests[j].pc.turn))
  }

  /** Nothing changes for any request but `i`. */
  predicate OneEntry(s: Sys, s': Sys, i: nat) {
    && i < |s.requests| == |s'.requests|
    && forall j :: 0 <= j < |s.requests| && j != i ==> SameEntry(s, s', j)
  }

  lemma OneChanges(s: Sys, s': Sys, i: nat, n: nat)
    requires OneEntry(s, s', i)
    ensures Total(AllTurnsDue(s')) + TurnsDue(s, i) == Total(AllTurnsDue(s)) + TurnsDue(s', i)
    ensures Total(Dues(s', n)) + Due(s, i, n) == Total(Dues(s, n)) + Due(s', i, n)
  {
    forall j | 0 <= j < |s.requests| && j != i
      ensures AllTurnsDue(s)[j] == AllTurnsDue(s')[j] && Dues(s, n)[j] == Dues(s', n)[j]
    {
      assert SameEntry(s, s', j);
    }
    TotalOfOther(AllTurnsDue(s), AllTurnsDue(s'), i);
    TotalOfOther(Dues(s, n), Dues(s', n), i);
  }

  /** When one request does not make more turns due, the work changes by what it is due. */
  lemma WorkOfOne(s: Sys, s': Sys, i: nat)
    requires OneEntry(s, s', i) && |s'.turns| + TurnsDue(s', i) <= |s.turns| + TurnsDue(s, i)
    ensures Work(s') + Due(s, i, MostTurns(s)) <= Work(s) + Due(s', i, MostTurns(s))
  {
    OneChanges(s, s', i, MostTurns(s));
    DuesGrow(s', MostTurns(s'), MostTurns(s));
  }

  // --------------------------------------------------------------------- single steps

  lemma AcquireWorks(s: Sys, i: nat)
    requires Inv(s) && i < |s.requests| && s.requests[i].pc == Arriving
    ensures Work(Acquired(s, i)) < Work(s)
  {
    var s' := Acquired(s, i);
    forall j | 0 <= j < |s.requests| && j != i ensures SameEntry(s, s', j) {
      assert RequestOk(s, j);
    }
    WorkOfOne(s, s', i);
  }

  /** A step in which turns at most get interrupted. */
  predicate KeepsTurns(s: Sys, s': Sys) {
    && |s'.turns| == |s.turns|
    && forall t :: 0 <= t < |s.turns| ==>
         s'.turns[t].left == s.turns[t].left && s'.turns[t].box == s.turns[t].box
  }

  /** A request that has no turn of its own goes on, or is finished. */
  lemma RequestWorks(s: Sys, s': Sys, i: nat)
    requires i < |s.requests| == |s'.requests| && KeepsTurns(s, s')
    requires forall j :: 0 <= j < |s.requests| && j != i ==> s'.requests[j] == s.requests[j]
    requires !s.requests[i].pc.Owning? && !s.requests[i].pc.Finished? && !s'.requests[i].pc.Owning?
    requires s'.requests[i].pc.Finished? || Due(s', i, MostTurns(s)) < Due(s, i, MostTurns(s))
    ensures Work(s') < Work(s)
  {
    WorkOfOne(s, s', i);
  }

  lemma PushWorks(s: Sys, i: nat, t: nat, row: nat)
    requires Inv(s) && i < |s.requests| && t < |s.turns| && s.requests[i].pc == Facing(t)
    requires s.requests[i].row == Some(row)
    ensures Work(Pushing(s, i, t, row)) < Work(s)
  {
    var s' := Pushing(s, i, t, row);
    if s.turns[t].box.closed {
      RequestWorks(s, s', i);
    } else {
      var o := s.turns[t].owner;
      assert TurnOk(s, t);
      var mid := SetPc(s, i, Finished(SteeredInto(t)));
      forall j | 0 <= j < |s.requests| && j != o ensures SameEntry(mid, s', j) {
        assert RequestOk(s, j);
      }
      var n := MostTurns(s);
      OneChanges(s, mid, i, n);
      OneChanges(mid, s', o, n);
      DuesGrow(s', MostTurns(s'), n);
    }
  }

  lemma FacingWorks(s: Sys, i: nat, t: nat, a: Action)
    requires Inv(s) && i < |s.requests| && t < |s.turns| && s.requests[i].pc == Facing(t)
    requires FacingStep(s, i, t, a).Some?
    ensures Work(FacingStep(s, i, t, a).value) < Work(s)
  {
    if a.Push? {
      PushWorks(s, i, t, s.requests[i].row.value);
    } else {
      RequestWorks(s, FacingStep(s, i, t, a).value, i);
    }
  }

  lemma {:induction false} Pigeons(xs: seq<nat>, n: nat)
    requires forall k :: 0 <= k < |xs| ==> xs[k] < n
    requires forall k, l :: 0 <= k < l < |xs| ==> xs[k] != xs[l]
    ensures |xs| <= n
    decreases n
  {
    if xs != [] {
      assert xs[0] < n;
      if k :| 0 <= k < |xs| && xs[k] == n - 1 {
        Pigeons(xs[..k] + xs[k + 1..], n - 1);
      } else {
        Pigeons(xs, n - 1);
      }
    }
  }

  lemma WaitingWorks(s: Sys, i: nat, t: nat, a: Action)
    requires Inv(s) && i < |s.requests| && t < |s.turns| && s.requests[i].pc == Waiting(t)
    requires WaitingStep(s, i, t, a).Some? && Inv(WaitingStep(s, i, t, a).value)
    ensures Work(WaitingStep(s, i, t, a).value) < Work(s)
  {
    var s' := WaitingStep(s, i, t, a).value;
    assert RequestOk(s', i);
    Pigeons(s'.requests[i].waits, |s'.turns|);
    RequestWorks(s, s', i);
  }

  /** What the owner of a turn does, until it resumes, concerns its own place in the program
      and its own turn; late messages only grow fewer. */
  predicate OwnStep(s: Sys, s': Sys, i: nat, t: nat)
    requires i < |s.requests| && t < |s.turns|
  {
    && |s'.requests| == |s.requests| && |s'.turns| == |s.turns| && (HasLate(s', t) ==> HasLate(s, t))
    && (forall j :: 0 <= j < |s.requests| && j != i ==> s'.requests[j] == s.requests[j])
    && (forall u :: 0 <= u < |s.turns| && u != t ==> s'.turns[u] == s.turns[u])
  }

  lemma OwnStepIsOneEntry(s: Sys, s': Sys, i: nat, t: nat)
    requires Inv(s) && i < |s.requests| && t < |s.turns| && s.turns[t].owner == i && OwnStep(s, s', i, t)
    ensures OneEntry(s, s', i)
  {
    forall j | 0 <= j < |s.requests| && j != i ensures SameEntry(s, s', j) {
      assert RequestOk(s, j);
    }
  }

  lemma OwnStepWorks(s: Sys, s': Sys, i: nat, t: nat)
    requires Inv(s) && i < |s.requests| && t < |s.turns| && OwnStep(s, s', i, t)
    requires s.requests[i].pc.Owning? && s.requests[i].pc.turn == t
    requires s'.requests[i].pc.Owning? && s'.requests[i].pc.turn == t
    ensures Work(s') + PhaseRank(s.requests[i].pc.phase) <= Work(s) + PhaseRank(s'.requests[i].pc.phase)
  {
    assert RequestOk(s, i) && TurnOk(s, t);
    OwnStepIsOneEntry(s, s', i, t);
    WorkOfOne(s, s', i);
  }

  lemma PhasesAdvance(s: Sys, i: nat, t: nat, phase: Phase, a: Action)
    requires i < |s.requests| && t < |s.turns| && s.requests[i].pc == Owning(t, phase) && !phase.Resuming?
    requires TurnStep(s, i, t, phase, a).Some?
    ensures var s' := TurnStep(s, i, t, phase, a).value;
            && OwnStep(s, s', i, t) && s'.requests[i].pc.Owning? && s'.requests[i].pc.turn == t
            && if a.Ask? then s'.requests[i].pc.phase == phase
               else PhaseRank(s'.requests[i].pc.phase) < PhaseRank(phase)
  {
  }

  lemma ResumeWorks(s: Sys, i: nat, t: nat)
    requires Inv(s) && i < |s.requests| && t < |s.turns| && s.requests[i].pc == Owning(t, Resuming)
    ensures Work(Resumed(s, i, t)) < Work(s)
  {
    var turn := s.turns[t];
    var ended := SetPc(SetTurn(s, t, turn.(resumed := Some(turn.left))), i, Finished(Ran));
    assert RequestOk(s, i) && TurnOk(s, t);
    OwnStepIsOneEntry(s, ended, i, t);
    if turn.left == [] {
      WorkOfOne(s, ended, i);
    } else {
      var s', n := Resumed(s, i, t), MostTurns(s);
      OneChanges(s, ended, i, n);
      JoinedDues(ended, FollowUp(s.requests[i], t, turn.left[|turn.left| - 1]), n);
      DuesGrow(s', MostTurns(s'), n);
    }
  }

  lemma JoinedDues(s: Sys, r: Request, n: nat)
    requires r.pc == Arriving && r.waits == []
    ensures var s' := s.(requests := s.requests + [r]);
            && Total(AllTurnsDue(s')) == Total(AllTurnsDue(s)) + 1
            && Total(Dues(s', n)) == Total(Dues(s, n)) + Price(n) + 4 * n + 13
  {
    var s' := s.(requests := s.requests + [r]);
    assert AllTurnsDue(s') == AllTurnsDue(s) + [1];
    assert Dues(s', n) == Dues(s, n) + [Price(n) + 4 * n + 13];
    TotalSnoc(AllTurnsDue(s), 1);
    TotalSnoc(Dues(s, n), Price(n) + 4 * n + 13);
  }

  lemma TurnWorks(s: Sys, i: nat, t: nat, phase: Phase, a: Action)
    requires Inv(s) && i < |s.requests| && t < |s.turns| && s.requests[i].pc == Owning(t, phase)
    requires TurnStep(s, i, t, phase, a).Some?
    ensures var w := Work(TurnStep(s, i, t, phase, a).value); if a.Ask? then w <= Work(s) else w < Work(s)
  {
    if phase.Resuming? {
      ResumeWorks(s, i, t);
    } else {
      PhasesAdvance(s, i, t, phase, a);
      OwnStepWorks(s, TurnStep(s, i, t, phase, a).value, i, t);
    }
  }

  /** Every step but an arrival and a model call takes from the work that is left, and a
      model call adds none. */
  lemma StepsUseUp(s: Sys, a: Action)
    requires Inv(s) && Step(s, a).Some? && !a.Arrive?
    ensures var w := Work(Step(s, a).value); if a.Ask? then w <= Work(s) else w < Work(s)
  {
    match s.requests[a.i].pc
    case Arriving => AcquireWorks(s, a.i);
    case Facing(t) => FacingWorks(s, a.i, t, a);
    case Waiting(t) =>
      StepKeeps(s, a);
      WaitingWorks(s, a.i, t, a);
    case Owning(t, phase) => TurnWorks(s, a.i, t, phase, a);
  }

  // ---------------------------------------------------------------------- whole runs

  /** The steps of a run other than model calls. */
  function Moves(more: seq<Action>): nat {
    if more == [] then 0 else Moves(more[..|more| - 1]) + if more[|more| - 1].Ask? then 0 else 1
  }

  /** No run goes on for ever: without new requests, and apart from model calls, it takes no
      more steps than the work that is left, in whatever order, and whether or not requests
      give up and setups and stores fail. */
  lemma {:induction false} RunsEnd(actions: seq<Action>, more: seq<Action>)
    requires After(actions + more).Some? && forall k :: 0 <= k < |more| ==> !more[k].Arrive?
    ensures After(actions).Some? && Moves(more) + Work(After(actions + more).value) <= Work(After(actions).value)
    decreases |more|
  {
    if more == [] {
      Nothing(actions);
    } else {
      var before, a := more[..|more| - 1], more[|more| - 1];
      InitLast(more);
      Rejoin(actions, before, [a]);
      Snoc(actions + before, a);
      RunsEnd(actions, before);
      EveryReachableStateIsSound(actions + before);
      StepsUseUp(After(actions + before).value, a);
    }
  }

  predicate AllFinished(s: Sys) {
    forall i :: 0 <= i < |s.requests| ==> s.requests[i].pc.Finished?
  }

  lemma AfterOneMore(actions: seq<Action>, a: Action)
    requires After(actions).Some?
    ensures After(actions + [a]) == Step(After(actions).value, a)
  {
    Snoc(actions, a);
  }

  /** From every reachable state some run finishes every request, none of them by giving up,
      with no further model call. */
  lemma {:induction false} EveryoneCanFinish(actions: seq<Action>) returns (more: seq<Action>)
    requires After(actions).Some?
    ensures forall k :: 0 <= k < |more| ==> Smooth(more[k])
    ensures After(actions + more).Some? && AllFinished(After(actions + more).value)
    decreases Work(After(actions).value)
  {
    var s := After(actions).value;
    if i :| 0 <= i < |s.requests| && !s.requests[i].pc.Finished? {
      var a := SomebodyCanMove(actions, i);
      EveryReachableStateIsSound(actions);
      StepsUseUp(s, a);
      AfterOneMore(actions, a);
      var rest := EveryoneCanFinish(actions + [a]);
      more := [a] + rest;
      Rejoin(actions, [a], rest);
    } else {
      more := [];
      Nothing(actions);
    }
  }
}
