/**
 What a turn does for the request that owns it (Run and runTurn in
 internal/agent/agent.go): the message is stored before the history is loaded, the model is
 called with the history loaded, and a request has run when a turn of its own is over.
 */
module TurnOwners {
  import opened Util
  import opened Sequences
  import opened Inbox
  import opened TurnProtocol

  /** Where the owner of a turn stands, the message it runs for is stored, and the history
      the turn has loaded goes beyond it. */
  predicate OwnOk(s: Sys, t: nat)
    requires t < |s.turns|
  {
    var turn := s.turns[t];
    && turn.owner < |s.requests|
    && var r := s.requests[turn.owner];
       && (turn.loaded.Some? ==> r.row.Some? && r.row.value < turn.loaded.value)
       && (r.pc == Owning(t, Loading) ==> r.row.Some?)
       && (r.pc == Owning(t, Running) || r.pc == Owning(t, Storing) ==> turn.loaded.Some?)
       && (turn.box.placed != [] ==> turn.loaded.Some?)
  }

  /** A request that has run owns a turn. */
  predicate HasRun(s: Sys, i: nat)
    requires i < |s.requests|
  {
    s.requests[i].pc == Finished(Ran) ==> exists t :: 0 <= t < |s.turns| && s.turns[t].owner == i
  }

  ghost predicate OwnersOk(s: Sys) {
    && (forall t :: 0 <= t < |s.turns| ==> OwnOk(s, t))
    && forall i :: 0 <= i < |s.requests| ==> HasRun(s, i)
  }

  /** Request `i` does not lose its row, the others stay and new ones have not run; turns keep
      their owners, and those of other owners what they have loaded and shown. */
  predicate OthersStay(s: Sys, s': Sys, i: nat) {
    && |s.requests| <= |s'.requests| && |s.turns| <= |s'.turns|
    && (forall j :: 0 <= j < |s.requests| && j != i ==> s'.requests[j] == s.requests[j])
    && (forall j :: |s.requests| <= j < |s'.requests| ==> s'.requests[j].pc == Arriving)
    && (forall t :: 0 <= t < |s.turns| ==> s'.turns[t].owner == s.turns[t].owner)
    && (forall t :: 0 <= t < |s.turns| && s.turns[t].owner != i ==>
          s'.turns[t].loaded == s.turns[t].loaded && s'.turns[t].box.placed == s.turns[t].box.placed)
  }

  lemma OthersKeep(s: Sys, s': Sys, i: nat)
    requires OwnersOk(s) && OthersStay(s, s', i)
    requires forall t :: 0 <= t < |s'.turns| && (t >= |s.turns| || s.turns[t].owner == i) ==> OwnOk(s', t)
    requires i < |s.requests| ==> HasRun(s', i)
    ensures OwnersOk(s')
  {
    forall t | 0 <= t < |s'.turns| ensures OwnOk(s', t) {
      if t < |s.turns| && s.turns[t].owner != i {
        assert OwnOk(s, t);
      }
    }
    forall j | 0 <= j < |s'.requests| ensures HasRun(s', j) {
      if j < |s.requests| && j != i {
        assert HasRun(s, j);
        if s.requests[j].pc == Finished(Ran) {
          var t :| 0 <= t < |s.turns| && s.turns[t].owner == j;
          assert s'.turns[t].owner == j;
        }
      }
    }
  }

  lemma ArrivingKeepsOwners(s: Sys, i: nat)
    requires Inv(s) && OwnersOk(s) && i < |s.requests| && s.requests[i].pc == Arriving
    ensures OwnersOk(Acquired(s, i))
  {
    var s' := Acquired(s, i);
    forall t | 0 <= t < |s.turns| && s.turns[t].owner == i ensures OwnOk(s', t) {
      assert OwnOk(s, t);
    }
    OthersKeep(s, s', i);
  }

  lemma FacingKeepsOwners(s: Sys, i: nat, u: nat, a: Action)
    requires Inv(s) && OwnersOk(s) && i < |s.requests| && u < |s.turns| && s.requests[i].pc == Facing(u)
    requires FacingStep(s, i, u, a).Some?
    ensures OwnersOk(FacingStep(s, i, u, a).value)
  {
    var s' := FacingStep(s, i, u, a).value;
    forall t | 0 <= t < |s.turns| && s.turns[t].owner == i ensures OwnOk(s', t) {
      assert OwnOk(s, t);
    }
    OthersKeep(s, s', i);
  }

  lemma WaitingKeepsOwners(s: Sys, i: nat, u: nat, a: Action)
    requires OwnersOk(s) && i < |s.requests| && u < |s.turns| && s.requests[i].pc == Waiting(u)
    requires WaitingStep(s, i, u, a).Some?
    ensures OwnersOk(WaitingStep(s, i, u, a).value)
  {
    var s' := WaitingStep(s, i, u, a).value;
    forall t | 0 <= t < |s.turns| && s.turns[t].owner == i ensures OwnOk(s', t) {
      assert OwnOk(s, t);
    }
    OthersKeep(s, s', i);
  }

  lemma ResumeKeepsOwners(s: Sys, i: nat, u: nat)
    requires Inv(s) && OwnersOk(s) && i < |s.requests| && u < |s.turns| && s.requests[i].pc == Owning(u, Resuming)
    ensures OwnersOk(Resumed(s, i, u))
  {
    var s' := Resumed(s, i, u);
    assert RequestOk(s, i);
    forall t | 0 <= t < |s.turns| && s.turns[t].owner == i ensures OwnOk(s', t) {
      assert OwnOk(s, t);
    }
    assert s'.turns[u].owner == i;
    OthersKeep(s, s', i);
  }

  lemma OpenKeepsOwners(s: Sys, i: nat, u: nat, ok: bool)
    requires Inv(s) && OwnersOk(s) && i < |s.requests| && u < |s.turns| && s.requests[i].pc == Owning(u, Opening)
    ensures OwnersOk(Opened(s, i, u, ok))
  {
    var s' := Opened(s, i, u, ok);
    forall t | 0 <= t < |s.turns| && s.turns[t].owner == i ensures OwnOk(s', t) {
      assert OwnOk(s, t);
    }
    OthersKeep(s, s', i);
  }

  lemma LoadKeepsOwners(s: Sys, i: nat, u: nat)
    requires Inv(s) && OwnersOk(s) && i < |s.requests| && u < |s.turns| && s.requests[i].pc == Owning(u, Loading)
    ensures OwnersOk(SetPc(SetTurn(s, u, s.turns[u].(loaded := Some(|s.store|))), i, Owning(u, Running)))
  {
    var s' := SetPc(SetTurn(s, u, s.turns[u].(loaded := Some(|s.store|))), i, Owning(u, Running));
    assert RequestOk(s, i) && OwnOk(s, u);
    forall t | 0 <= t < |s.turns| && s.turns[t].owner == i ensures OwnOk(s', t) {
      assert OwnOk(s, t);
    }
    OthersKeep(s, s', i);
  }

  lemma AskKeepsOwners(s: Sys, i: nat, u: nat, length: nat)
    requires Inv(s) && OwnersOk(s) && i < |s.requests| && u < |s.turns| && s.requests[i].pc == Owning(u, Running)
    ensures OwnersOk(SetTurn(s, u, s.turns[u].(box := Delivered(s.turns[u].box, length))))
  {
    var s' := SetTurn(s, u, s.turns[u].(box := Delivered(s.turns[u].box, length)));
    assert RequestOk(s, i);
    forall t | 0 <= t < |s.turns| && s.turns[t].owner == i ensures OwnOk(s', t) {
      assert OwnOk(s, t);
    }
    OthersKeep(s, s', i);
  }

  /** A turn that has been loaded, or will not be, moves on. */
  lemma MovingKeepsOwners(s: Sys, s': Sys, i: nat, u: nat, phase: Phase)
    requires Inv(s) && OwnersOk(s) && i < |s.requests| && u < |s.turns| && s.requests[i].pc.Owning?
    requires s.requests[i].pc.turn == u && !phase.Loading?
    requires phase.Running? || phase.Storing? ==> s.turns[u].loaded.Some?
    requires s'.requests == s.requests[i := s.requests[i].(pc := Owning(u, phase))]
    requires |s'.turns| == |s.turns| && forall t :: 0 <= t < |s.turns| && t != u ==> s'.turns[t] == s.turns[t]
    requires s'.turns[u].owner == s.turns[u].owner && s'.turns[u].loaded == s.turns[u].loaded
    requires s'.turns[u].box.placed == s.turns[u].box.placed
    ensures OwnersOk(s')
  {
    assert RequestOk(s, i);
    forall t | 0 <= t < |s.turns| && s.turns[t].owner == i ensures OwnOk(s', t) {
      assert OwnOk(s, t);
    }
    OthersKeep(s, s', i);
  }

  /** The steps after a turn's last call to the model. */
  lemma EndingKeepsOwners(s: Sys, i: nat, u: nat, phase: Phase, a: Action)
    requires Inv(s) && OwnersOk(s) && i < |s.requests| && u < |s.turns| && s.requests[i].pc == Owning(u, phase)
    requires TurnStep(s, i, u, phase, a).Some? && !a.Resume? && !a.Open? && !a.Load? && !a.Ask? && !a.FailSetup?
    ensures OwnersOk(TurnStep(s, i, u, phase, a).value)
  {
    assert RequestOk(s, i) && OwnOk(s, u);
    var s' := TurnStep(s, i, u, phase, a).value;
    MovingKeepsOwners(s, s', i, u, s'.requests[i].pc.phase);
  }

  lemma TurnKeepsOwners(s: Sys, i: nat, u: nat, phase: Phase, a: Action)
    requires Inv(s) && OwnersOk(s) && i < |s.requests| && u < |s.turns| && s.requests[i].pc == Owning(u, phase)
    requires TurnStep(s, i, u, phase, a).Some?
    ensures OwnersOk(TurnStep(s, i, u, phase, a).value)
  {
    match a
    case Resume(_) => ResumeKeepsOwners(s, i, u);
    case Open(_, ok) => OpenKeepsOwners(s, i, u, ok);
    case Load(_) => LoadKeepsOwners(s, i, u);
    case Ask(_, length) => AskKeepsOwners(s, i, u, length);
    case FailSetup(_, ok) => MovingKeepsOwners(s, SetupFailed(s, i, u, ok), i, u, Returned);
    case _ => EndingKeepsOwners(s, i, u, phase, a);
  }

  lemma StepKeepsOwners(s: Sys, a: Action)
    requires Inv(s) && OwnersOk(s) && Step(s, a).Some?
    ensures OwnersOk(Step(s, a).value)
  {
    if a.Arrive? {
      forall t | 0 <= t < |s.turns| ensures s.turns[t].owner < |s.requests| {
        assert OwnOk(s, t);
      }
      OthersKeep(s, Step(s, a).value, |s.requests|);
    } else {
      match s.requests[a.i].pc
      case Arriving => ArrivingKeepsOwners(s, a.i);
      case Facing(t) => FacingKeepsOwners(s, a.i, t, a);
      case Waiting(t) => WaitingKeepsOwners(s, a.i, t, a);
      case Owning(t, phase) => TurnKeepsOwners(s, a.i, t, phase, a);
    }
  }

  lemma {:induction false} ReachableOwnersOk(actions: seq<Action>)
    requires After(actions).Some?
    ensures OwnersOk(After(actions).value)
    decreases |actions|
  {
    if actions != [] {
      var before, a := actions[..|actions| - 1], actions[|actions| - 1];
      ReachableOwnersOk(before);
      EveryReachableStateIsSound(before);
      StepKeepsOwners(After(before).value, a);
    }
  }

  /** A turn that has loaded its history, as every turn that calls the model has, loaded the
      message it runs for with it. */
  lemma OwnMessageIsLoaded(actions: seq<Action>, t: nat)
    requires After(actions).Some? && t < |After(actions).value.turns|
    ensures var s := After(actions).value;
            var turn := s.turns[t];
            && turn.owner < |s.requests|
            && var r := s.requests[turn.owner];
               && (turn.loaded.Some? ==>
                     r.row.Some? && r.row.value < turn.loaded.value && Holds(s, r.row.value, r.text, turn.session))
               && (r.pc == Owning(t, Running) || r.pc == Owning(t, Storing) || turn.box.placed != [] ==>
                     turn.loaded.Some?)
  {
    ReachableOwnersOk(actions);
    EveryReachableStateIsSound(actions);
    var s := After(actions).value;
    assert OwnOk(s, t) && TurnOk(s, t) && RequestOk(s, s.turns[t].owner);
  }

  /** A request that ends as run has had a turn of its own, which is over. */
  lemma RunsAreTurns(actions: seq<Action>, i: nat)
    requires After(actions).Some? && i < |After(actions).value.requests|
    requires After(actions).value.requests[i].pc == Finished(Ran)
    ensures var s := After(actions).value;
            exists t :: 0 <= t < |s.turns| && s.turns[t].owner == i && s.turns[t].session == s.requests[i].session
                        && s.turns[t].done == 1
  {
    ReachableOwnersOk(actions);
    EveryReachableStateIsSound(actions);
    var s := After(actions).value;
    assert HasRun(s, i);
    var t :| 0 <= t < |s.turns| && s.turns[t].owner == i;
    assert TurnOk(s, t);
  }
}
