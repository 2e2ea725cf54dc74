/**
 What a stop request does (Run in internal/agent/agent.go): it interrupts the turn it
 meets, waits for it, and then runs as a turn of its own; nothing else interrupts a turn.
 */
module TurnStops {
  import opened Util
  import opened Sequences
  import opened TurnProtocol

  /** A user asks to stop; a follow-up of an earlier message does not, whatever its text. */
  predicate AsksToStop(r: Request) {
    r.isStop && r.origin.None?
  }

  predicate IsInterrupted(s: Sys, t: nat) {
    t < |s.turns| && s.turns[t].interrupted
  }

  /** A stop request waits for interrupted turns only, and its message is stored by the turn
      it runs; any other message is stored before its request waits. */
  predicate StopOk(s: Sys, r: Request) {
    if AsksToStop(r) then
      && (r.row.Some? ==> r.pc.Owning? || r.pc == Finished(Ran))
      && (r.pc.Waiting? ==> IsInterrupted(s, r.pc.turn))
      && (forall k :: 0 <= k < |r.waits| ==> IsInterrupted(s, r.waits[k]))
    else
      r.pc.Waiting? ==> r.row.Some?
  }

  predicate StopsOk(s: Sys) {
    forall i :: 0 <= i < |s.requests| ==> StopOk(s, s.requests[i])
  }

  /** An interrupted turn stays so. */
  predicate MarksStay(s: Sys, s': Sys) {
    forall t :: 0 <= t < |s.turns| && s.turns[t].interrupted ==> IsInterrupted(s', t)
  }

  /** Requests other than `i` stay, and new ones have only arrived. */
  predicate OthersStay(s: Sys, s': Sys, i: nat) {
    && |s.requests| <= |s'.requests|
    && (forall j :: 0 <= j < |s.requests| && j != i ==> s'.requests[j] == s.requests[j])
    && (forall j :: |s.requests| <= j < |s'.requests| ==>
          && s'.requests[j].pc == Arriving && s'.requests[j].waits == []
          && (AsksToStop(s'.requests[j]) ==> s'.requests[j].row.None?))
  }

  lemma OthersKeep(s: Sys, s': Sys, i: nat)
    requires StopsOk(s) && MarksStay(s, s') && OthersStay(s, s', i)
    requires i < |s.requests| ==> StopOk(s', s'.requests[i])
    ensures StopsOk(s')
  {
    forall j | 0 <= j < |s'.requests| ensures StopOk(s', s'.requests[j]) {
      if j < |s.requests| && j != i {
        assert StopOk(s, s.requests[j]);
      }
    }
  }

  lemma ArrivingKeeps(s: Sys, i: nat)
    requires StopsOk(s) && i < |s.requests| && s.requests[i].pc == Arriving
    ensures var s' := Acquired(s, i); StopsOk(s') && MarksStay(s, s')
  {
    assert StopOk(s, s.requests[i]);
    OthersKeep(s, Acquired(s, i), i);
  }

  lemma FacingKeepsStops(s: Sys, i: nat, t: nat, a: Action)
    requires Inv(s) && StopsOk(s) && i < |s.requests| && t < |s.turns| && s.requests[i].pc == Facing(t)
    requires FacingStep(s, i, t, a).Some?
    ensures var s' := FacingStep(s, i, t, a).value; StopsOk(s') && MarksStay(s, s')
  {
    assert RequestOk(s, i) && StopOk(s, s.requests[i]);
    OthersKeep(s, FacingStep(s, i, t, a).value, i);
  }

  lemma WaitingKeepsStops(s: Sys, i: nat, t: nat, a: Action)
    requires StopsOk(s) && i < |s.requests| && t < |s.turns| && s.requests[i].pc == Waiting(t)
    requires WaitingStep(s, i, t, a).Some?
    ensures var s' := WaitingStep(s, i, t, a).value; StopsOk(s') && MarksStay(s, s')
  {
    assert StopOk(s, s.requests[i]);
    OthersKeep(s, WaitingStep(s, i, t, a).value, i);
  }

  lemma ResumeKeepsStops(s: Sys, i: nat, t: nat)
    requires StopsOk(s) && i < |s.requests| && t < |s.turns| && s.requests[i].pc == Owning(t, Resuming)
    ensures StopsOk(Resumed(s, i, t)) && MarksStay(s, Resumed(s, i, t))
  {
    assert StopOk(s, s.requests[i]);
    OthersKeep(s, Resumed(s, i, t), i);
  }

  lemma OpenKeepsStops(s: Sys, i: nat, t: nat, ok: bool)
    requires StopsOk(s) && i < |s.requests| && t < |s.turns| && s.requests[i].pc == Owning(t, Opening)
    ensures StopsOk(Opened(s, i, t, ok)) && MarksStay(s, Opened(s, i, t, ok))
  {
    assert StopOk(s, s.requests[i]);
    OthersKeep(s, Opened(s, i, t, ok), i);
  }

  lemma TurnKeepsStops(s: Sys, i: nat, t: nat, phase: Phase, a: Action)
    requires StopsOk(s) && i < |s.requests| && t < |s.turns| && s.requests[i].pc == Owning(t, phase)
    requires TurnStep(s, i, t, phase, a).Some?
    ensures var s' := TurnStep(s, i, t, phase, a).value; StopsOk(s') && MarksStay(s, s')
  {
    match phase
    case Resuming => ResumeKeepsStops(s, i, t);
    case Opening => OpenKeepsStops(s, i, t, a.ok);
    case _ =>
      assert StopOk(s, s.requests[i]);
      OthersKeep(s, TurnStep(s, i, t, phase, a).value, i);
  }

  lemma StepKeepsStops(s: Sys, a: Action)
    requires Inv(s) && StopsOk(s) && Step(s, a).Some?
    ensures StopsOk(Step(s, a).value) && MarksStay(s, Step(s, a).value)
  {
    if a.Arrive? {
      OthersKeep(s, Step(s, a).value, |s.requests|);
    } else {
      match s.requests[a.i].pc
      case Arriving => ArrivingKeeps(s, a.i);
      case Facing(t) => FacingKeepsStops(s, a.i, t, a);
      case Waiting(t) => WaitingKeepsStops(s, a.i, t, a);
      case Owning(t, phase) => TurnKeepsStops(s, a.i, t, phase, a);
    }
  }

  lemma {:induction false} ReachableStopsOk(actions: seq<Action>)
    requires After(actions).Some?
    ensures StopsOk(After(actions).value)
    decreases |actions|
  {
    if actions != [] {
      var before, a := actions[..|actions| - 1], actions[|actions| - 1];
      ReachableStopsOk(before);
      EveryReachableStateIsSound(before);
      StepKeepsStops(After(before).value, a);
    }
  }

  /** A stop request is never steered into the turn it is to stop: its message is stored by a
      turn of its own only, and every turn it waits for, or has waited for, is interrupted. */
  lemma StopInterrupts(actions: seq<Action>, i: nat)
    requires After(actions).Some? && i < |After(actions).value.requests|
    requires var r := After(actions).value.requests[i]; r.isStop && r.origin.None?
    ensures var s := After(actions).value;
            var r := s.requests[i];
            && !(r.pc.Finished? && r.pc.outcome.SteeredInto?)
            && (r.row.Some? ==> r.pc.Owning? || r.pc == Finished(Ran))
            && (r.pc.Waiting? ==> r.pc.turn < |s.turns| && s.turns[r.pc.turn].interrupted)
            && (forall k :: 0 <= k < |r.waits| ==> r.waits[k] < |s.turns| && s.turns[r.waits[k]].interrupted)
  {
    var s := After(actions).value;
    ReachableStopsOk(actions);
    EveryReachableStateIsSound(actions);
    assert StopOk(s, s.requests[i]) && RequestOk(s, i);
  }

  // ------------------------------------------------------ only a stop request interrupts

  /** After `k` steps of the run request `j`, a stop request, waits for turn `t`. */
  predicate WaitsToStop(actions: seq<Action>, k: nat, j: nat, t: nat) {
    && k <= |actions| && After(actions[..k]).Some?
    && var s := After(actions[..k]).value;
       j < |s.requests| && s.requests[j].isStop && s.requests[j].origin.None? && s.requests[j].pc == Waiting(t)
  }

  /** A turn becomes interrupted in the step in which a stop request begins to wait for it. */
  predicate NewMarkHasStop(s: Sys, s': Sys, t: nat) {
    IsInterrupted(s', t) && !IsInterrupted(s, t) ==>
      exists j :: 0 <= j < |s'.requests| && AsksToStop(s'.requests[j]) && s'.requests[j].pc == Waiting(t)
  }

  lemma FacingMarks(s: Sys, i: nat, u: nat, a: Action, t: nat)
    requires Inv(s) && i < |s.requests| && u < |s.turns| && s.requests[i].pc == Facing(u)
    requires FacingStep(s, i, u, a).Some?
    ensures NewMarkHasStop(s, FacingStep(s, i, u, a).value, t)
  {
    var s' := FacingStep(s, i, u, a).value;
    assert RequestOk(s, i);
    if IsInterrupted(s', t) && !IsInterrupted(s, t) {
      assert AsksToStop(s'.requests[i]) && s'.requests[i].pc == Waiting(t);
    }
  }

  lemma TurnMarksNone(s: Sys, i: nat, u: nat, phase: Phase, a: Action, t: nat)
    requires i < |s.requests| && u < |s.turns| && TurnStep(s, i, u, phase, a).Some?
    ensures IsInterrupted(TurnStep(s, i, u, phase, a).value, t) ==> IsInterrupted(s, t)
  {
  }

  lemma StepMarks(s: Sys, a: Action, t: nat)
    requires Inv(s) && Step(s, a).Some?
    ensures NewMarkHasStop(s, Step(s, a).value, t)
  {
    if !a.Arrive? {
      match s.requests[a.i].pc
      case Facing(u) => FacingMarks(s, a.i, u, a, t);
      case Owning(u, phase) => TurnMarksNone(s, a.i, u, phase, a, t);
      case _ =>
    }
  }

  /** Some stop request has waited for the turn in this run. */
  ghost predicate HasBeenStopped(actions: seq<Action>, t: nat) {
    exists k: nat, j: nat :: WaitsToStop(actions, k, j, t)
  }

  lemma StoppedStays(actions: seq<Action>, t: nat)
    requires actions != [] && HasBeenStopped(actions[..|actions| - 1], t)
    ensures HasBeenStopped(actions, t)
  {
    var before := actions[..|actions| - 1];
    var k: nat, j: nat :| WaitsToStop(before, k, j, t);
    assert before[..k] == actions[..k];
    assert WaitsToStop(actions, k, j, t);
  }

  lemma StoppedNow(actions: seq<Action>, t: nat)
    requires actions != [] && After(actions).Some? && After(actions[..|actions| - 1]).Some?
    requires IsInterrupted(After(actions).value, t) && !IsInterrupted(After(actions[..|actions| - 1]).value, t)
    ensures HasBeenStopped(actions, t)
  {
    var n, s' := |actions|, After(actions).value;
    EveryReachableStateIsSound(actions[..n - 1]);
    StepMarks(After(actions[..n - 1]).value, actions[n - 1], t);
    var j :| 0 <= j < |s'.requests| && AsksToStop(s'.requests[j]) && s'.requests[j].pc == Waiting(t);
    Whole(actions);
    assert WaitsToStop(actions, n, j, t);
  }

  lemma {:induction false} MarkHasStop(actions: seq<Action>, t: nat)
    requires After(actions).Some? && IsInterrupted(After(actions).value, t)
    ensures HasBeenStopped(actions, t)
    decreases |actions|
  {
    assert actions != [];
    var before := actions[..|actions| - 1];
    if IsInterrupted(After(before).value, t) {
      MarkHasStop(before, t);
      StoppedStays(actions, t);
    } else {
      StoppedNow(actions, t);
    }
  }

  lemma LastStepMarks(actions: seq<Action>)
    requires actions != [] && After(actions).Some?
    ensures After(actions[..|actions| - 1]).Some?
    ensures MarksStay(After(actions[..|actions| - 1]).value, After(actions).value)
  {
    var before := actions[..|actions| - 1];
    ReachableStopsOk(before);
    EveryReachableStateIsSound(before);
    StepKeepsStops(After(before).value, actions[|actions| - 1]);
  }

  lemma {:induction false} MarksLast(actions: seq<Action>, k: nat, t: nat)
    requires After(actions).Some? && k <= |actions| && After(actions[..k]).Some?
    requires IsInterrupted(After(actions[..k]).value, t)
    ensures IsInterrupted(After(actions).value, t)
    decreases |actions|
  {
    if k == |actions| {
      Whole(actions);
    } else {
      var before := actions[..|actions| - 1];
      assert before[..k] == actions[..k];
      LastStepMarks(actions);
      MarksLast(before, k, t);
    }
  }

  lemma StoppedIsMarked(actions: seq<Action>, t: nat)
    requires After(actions).Some? && HasBeenStopped(actions, t)
    ensures IsInterrupted(After(actions).value, t)
  {
    var k: nat, j: nat :| WaitsToStop(actions, k, j, t);
    StopInterrupts(actions[..k], j);
    MarksLast(actions, k, t);
  }

  /** A turn is interrupted if and only if some stop request has waited for it. */
  lemma InterruptedByStop(actions: seq<Action>, t: nat)
    requires After(actions).Some? && t < |After(actions).value.turns|
    ensures After(actions).value.turns[t].interrupted <==> HasBeenStopped(actions, t)
  {
    if After(actions).value.turns[t].interrupted {
      MarkHasStop(actions, t);
    }
    if HasBeenStopped(actions, t) {
      StoppedIsMarked(actions, t);
    }
  }
}
