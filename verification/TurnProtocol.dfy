/**
 One turn per session (Run, waitRun, persistUser and resume in internal/agent/agent.go,
 with the inbox and the registry of internal/agent/steer.go), as a system in which any
 number of requests take their atomic steps in any order.
 */
module TurnProtocol {
  import opened Util
  import opened Sequences
  import opened Inbox

  /** How far the owner of a turn has come. */
  datatype Phase =
    | Opening     // the turn is registered, its message is not stored yet
    | Loading     // the session's history is not loaded yet
    | Running     // the model is called; the inbox is read before every call
    | Storing     // the inbox is closed; the reply is being stored
    | Returned    // the turn function has returned, on whatever path
    | Releasing   // everything left in the inbox has been taken out
    | Signalling  // the registry has forgotten the turn; its waiters still wait
    | Resuming    // the waiters are woken; late messages may need a follow-up turn

  datatype Outcome = Ran | SteeredInto(turn: nat) | GaveUp

  datatype Pc =
    | Arriving               // the top of the loop
    | Facing(turn: nat)      // the session has this turn running
    | Waiting(turn: nat)
    | Owning(turn: nat, phase: Phase)
    | Finished(outcome: Outcome)

  /** A request; `origin` is the turn it was started for, when it follows up a message that
      this turn accepted too late. */
  datatype Request = Request(session: nat, text: string, isStop: bool, origin: Option<nat>, row: Option<nat>, pc: Pc,
                             waits: seq<nat>)

  /** A turn, with everything its inbox ever accepted, whether its setup failed, how many
      rows were stored when it loaded its history, and how often its waiters were woken. */
  datatype Turn = Turn(session: nat, owner: nat, box: Box, accepted: seq<Late>, left: seq<Late>, interrupted: bool,
                       failed: bool, loaded: Option<nat>, done: nat, resumed: Option<seq<Late>>)

  /** A stored row: the message of a request, or the reply of a turn. */
  datatype Entry = Said(author: nat) | Replied(turn: nat)

  /** All requests and turns so far, the registry, and the stored rows. */
  datatype Sys = Sys(requests: seq<Request>, turns: seq<Turn>, registry: map<nat, nat>, store: seq<Entry>)

  const START := Sys([], [], map[], [])

  datatype Action =
    | Arrive(session: nat, text: string, isStop: bool)
    | Acquire(i: nat)
    | Interrupt(i: nat)
    | Persist(i: nat, ok: bool)
    | Push(i: nat)
    | Wake(i: nat)
    | GiveUp(i: nat)
    | Open(i: nat, ok: bool)
    | Load(i: nat)
    | Ask(i: nat, length: nat)
    | FailSetup(i: nat, ok: bool)
    | EndDrive(i: nat)
    | Store(i: nat, ok: bool)
    | Drain(i: nat)
    | Unregister(i: nat)
    | Signal(i: nat)
    | Resume(i: nat)

  // ------------------------------------------------------------------------- steps

  function SetPc(s: Sys, i: nat, pc: Pc): Sys
    requires i < |s.requests|
  {
    s.(requests := s.requests[i := s.requests[i].(pc := pc)])
  }

  function SetTurn(s: Sys, t: nat, turn: Turn): Sys
    requires t < |s.turns|
  {
    s.(turns := s.turns[t := turn])
  }

  /** The message of request `i` is stored, in the next row. */
  function Saved(s: Sys, i: nat): Sys
    requires i < |s.requests|
  {
    s.(store := s.store + [Said(i)], requests := s.requests[i := s.requests[i].(row := Some(|s.store|))])
  }

  /** The reply of turn `t` is stored, unless the store fails. */
  function Kept(s: Sys, t: nat, ok: bool): Sys {
    if ok then s.(store := s.store + [Replied(t)]) else s
  }

  function Arrived(s: Sys, session: nat, text: string, isStop: bool): Sys {
    s.(requests := s.requests + [Request(session, text, isStop, None, None, Arriving, [])])
  }

  function NewTurn(session: nat, owner: nat): Turn {
    Turn(session, owner, NEW_BOX, [], [], false, false, None, 0, None)
  }

  function Acquired(s: Sys, i: nat): Sys
    requires i < |s.requests|
  {
    var session := s.requests[i].session;
    if session in s.registry then SetPc(s, i, Facing(s.registry[session]))
    else
      SetPc(s, i, Owning(|s.turns|, Opening))
      .(turns := s.turns + [NewTurn(session, i)], registry := s.registry[session := |s.turns|])
  }

  function Pushing(s: Sys, i: nat, t: nat, row: nat): Sys
    requires i < |s.requests| && t < |s.turns|
  {
    var turn := s.turns[t];
    if turn.box.closed then SetPc(s, i, Waiting(t)) else
    var late := Late(s.requests[i].text, row);
    var taken := turn.(box := Pushed(turn.box, late), accepted := turn.accepted + [late]);
    SetPc(SetTurn(s, t, taken), i, Finished(SteeredInto(t)))
  }

  /** A request that has met a running turn. */
  function FacingStep(s: Sys, i: nat, t: nat, a: Action): Option<Sys>
    requires i < |s.requests| && t < |s.turns|
  {
    var r := s.requests[i];
    if r.row.None? && r.isStop then
      if a.Interrupt? then Some(SetPc(SetTurn(s, t, s.turns[t].(interrupted := true)), i, Waiting(t))) else None
    else if r.row.None? then
      if a.Persist? then Some(if a.ok then Saved(s, i) else SetPc(s, i, Finished(GaveUp))) else None
    else if a.Push? then Some(Pushing(s, i, t, r.row.value))
    else None
  }

  function WaitingStep(s: Sys, i: nat, t: nat, a: Action): Option<Sys>
    requires i < |s.requests| && t < |s.turns|
  {
    if a.GiveUp? then Some(SetPc(s, i, Finished(GaveUp)))
    else if a.Wake? && s.turns[t].done > 0 then
      Some(s.(requests := s.requests[i := s.requests[i].(pc := Arriving, waits := s.requests[i].waits + [t])]))
    else None
  }

  /** The inbox is closed and what it still holds is kept for later. */
  function Drained(turn: Turn): Turn {
    turn.(left := turn.left + turn.box.pending, box := Closed(turn.box))
  }

  function Opened(s: Sys, i: nat, t: nat, ok: bool): Sys
    requires i < |s.requests|
  {
    if s.requests[i].row.Some? then SetPc(s, i, Owning(t, Loading))
    else if ok then SetPc(Saved(s, i), i, Owning(t, Loading))
    else SetPc(s, i, Owning(t, Returned))
  }

  /** The follow-up for the last message that turn `t` accepted too late. */
  function FollowUp(r: Request, t: nat, late: Late): Request {
    Request(r.session, late.text, r.isStop, Some(t), Some(late.row), Arriving, [])
  }

  /** The setup fails: the failure is stored as the reply, the inbox stays open. */
  function SetupFailed(s: Sys, i: nat, t: nat, ok: bool): Sys
    requires i < |s.requests| && t < |s.turns|
  {
    SetPc(SetTurn(Kept(s, t, ok), t, s.turns[t].(failed := true)), i, Owning(t, Returned))
  }

  function Resumed(s: Sys, i: nat, t: nat): Sys
    requires i < |s.requests| && t < |s.turns|
  {
    var turn := s.turns[t];
    var ended := SetPc(SetTurn(s, t, turn.(resumed := Some(turn.left))), i, Finished(Ran));
    if turn.left == [] then ended
    else ended.(requests := ended.requests + [FollowUp(s.requests[i], t, turn.left[|turn.left| - 1])])
  }

  function TurnStep(s: Sys, i: nat, t: nat, phase: Phase, a: Action): Option<Sys>
    requires i < |s.requests| && t < |s.turns|
  {
    var turn := s.turns[t];
    match phase
    case Opening => if a.Open? then Some(Opened(s, i, t, a.ok)) else None
    case Loading =>
      if a.Load? then Some(SetPc(SetTurn(s, t, turn.(loaded := Some(|s.store|))), i, Owning(t, Running)))
      else if a.FailSetup? then Some(SetupFailed(s, i, t, a.ok))
      else None
    case Running =>
      if a.Ask? then Some(SetTurn(s, t, turn.(box := Delivered(turn.box, a.length))))
      else if a.FailSetup? then Some(SetupFailed(s, i, t, a.ok))
      else if a.EndDrive? then Some(SetPc(SetTurn(s, t, Drained(turn)), i, Owning(t, Storing)))
      else None
    case Storing => if a.Store? then Some(SetPc(Kept(s, t, a.ok), i, Owning(t, Returned))) else None
    case Returned => if a.Drain? then Some(SetPc(SetTurn(s, t, Drained(turn)), i, Owning(t, Releasing))) else None
    case Releasing =>
      if a.Unregister? then
        var s' := SetPc(s, i, Owning(t, Signalling));
        Some(if Registered(s, t) then s'.(registry := s.registry - {turn.session}) else s')
      else None
    case Signalling =>
      if a.Signal? then Some(SetPc(SetTurn(s, t, turn.(done := turn.done + 1)), i, Owning(t, Resuming))) else None
    case Resuming => if a.Resume? then Some(Resumed(s, i, t)) else None
  }

  function ActorStep(s: Sys, i: nat, a: Action): Option<Sys>
    requires i < |s.requests|
  {
    match s.requests[i].pc
    case Arriving => if a.Acquire? then Some(Acquired(s, i)) else None
    case Facing(t) => if t < |s.turns| then FacingStep(s, i, t, a) else None
    case Waiting(t) => if t < |s.turns| then WaitingStep(s, i, t, a) else None
    case Owning(t, phase) => if t < |s.turns| then TurnStep(s, i, t, phase, a) else None
    case Finished(_) => None
  }

  /** One atomic step; None when it cannot be taken. */
  function Step(s: Sys, a: Action): Option<Sys> {
    if a.Arrive? then Some(Arrived(s, a.session, a.text, a.isStop))
    else if a.i < |s.requests| then ActorStep(s, a.i, a)
    else None
  }

  /** The state after a sequence of steps, None when one of them cannot be taken. */
  function After(actions: seq<Action>): Option<Sys>
    decreases |actions|
  {
    if actions == [] then Some(START) else
    var s := After(actions[..|actions| - 1]);
    if s.None? then None else Step(s.value, actions[|actions| - 1])
  }

  // -------------------------------------------------------------------- invariants

  /** The turn has not been released: its owner is still at work on it. */
  predicate Held(s: Sys, t: nat)
    requires t < |s.turns| && s.turns[t].owner < |s.requests|
  {
    var pc := s.requests[s.turns[t].owner].pc;
    pc.Owning? && pc.turn == t && !pc.phase.Signalling? && !pc.phase.Resuming?
  }

  predicate Registered(s: Sys, t: nat)
    requires t < |s.turns|
  {
    s.turns[t].session in s.registry && s.registry[s.turns[t].session] == t
  }

  /** Nothing accepted is lost or doubled: it was read by the model, or kept for a
      follow-up, or is still queued, in the order of arrival. */
  predicate Ledger(turn: Turn) {
    turn.accepted == LateIn(turn.box.placed) + turn.left + turn.box.pending
  }

  /** What the owner's place in the program says about the turn. */
  predicate PhaseOk(turn: Turn, phase: Phase) {
    && turn.resumed == None
    && (phase.Storing? || phase.Releasing? || phase.Signalling? || phase.Resuming? ==> turn.box.closed)
    && (turn.done == if phase.Resuming? then 1 else 0)
  }

  predicate OwnerOk(turn: Turn, t: nat, pc: Pc) {
    if pc.Owning? then pc.turn == t && PhaseOk(turn, pc.phase)
    else pc == Finished(Ran) && turn.box.closed && turn.done == 1 && turn.resumed == Some(turn.left)
  }

  /** A closed inbox is empty; before it is closed nothing is set aside. */
  predicate QueueOk(turn: Turn) {
    if turn.box.closed then turn.box.pending == [] else turn.left == []
  }

  /** The row holds the text, said in the session. */
  predicate Holds(s: Sys, row: nat, text: string, session: nat) {
    && row < |s.store| && s.store[row].Said? && s.store[row].author < |s.requests|
    && s.requests[s.store[row].author].text == text && s.requests[s.store[row].author].session == session
  }

  predicate RowsOk(s: Sys, turn: Turn) {
    && (forall k :: 0 <= k < |turn.accepted| ==> Holds(s, turn.accepted[k].row, turn.accepted[k].text, turn.session))
    && (turn.loaded.Some? ==> turn.loaded.value <= |s.store|)
  }

  /** The owner has not stored a reply yet. */
  predicate Unreplied(pc: Pc) {
    pc.Owning? && (pc.phase.Opening? || pc.phase.Loading? || pc.phase.Running? || pc.phase.Storing?)
  }

  /** A turn has at most one reply; unless its setup failed, everything it accepted is stored
      before. */
  ghost predicate ReplyOk(s: Sys, t: nat)
    requires t < |s.turns| && s.turns[t].owner < |s.requests|
  {
    var turn := s.turns[t];
    && CountOf(s.store, Replied(t)) <= 1
    && (Unreplied(s.requests[turn.owner].pc) ==> CountOf(s.store, Replied(t)) == 0 && !turn.failed)
    && (!turn.failed ==> forall p, k :: 0 <= p < |s.store| && s.store[p] == Replied(t) && 0 <= k < |turn.accepted| ==>
                           turn.accepted[k].row < p)
    && (!turn.failed && CountOf(s.store, Replied(t)) > 0 ==> turn.box.closed)
  }

  /** A turn begins after the earlier ones of its session, and finds in the store whatever
      they accepted and replied. */
  ghost predicate LaterOk(s: Sys, t: nat, u: nat)
    requires t < u < |s.turns|
  {
    s.turns[t].session == s.turns[u].session ==>
      && !Registered(s, t) && s.turns[t].box.closed
      && (s.turns[u].loaded.Some? ==> LoadsAll(s, t, s.turns[u].loaded.value))
  }

  /** The first `n` rows hold what the turn accepted and replied. */
  ghost predicate LoadsAll(s: Sys, t: nat, n: nat)
    requires t < |s.turns|
  {
    && (forall k :: 0 <= k < |s.turns[t].accepted| ==> s.turns[t].accepted[k].row < n)
    && (forall p :: 0 <= p < |s.store| && s.store[p] == Replied(t) ==> p < n)
  }

  /** A follow-up meets and runs turns behind the one it was started for. */
  predicate ComesAfter(r: Request, u: nat) {
    r.origin.Some? ==> r.origin.value < u
  }

  ghost predicate TurnOk(s: Sys, t: nat)
    requires t < |s.turns|
  {
    var turn := s.turns[t];
    && turn.owner < |s.requests|
    && Ledger(turn) && RowsOk(s, turn) && ReplyOk(s, t)
    && QueueOk(turn)
    && OwnerOk(turn, t, s.requests[turn.owner].pc)
    && (Registered(s, t) <==> Held(s, t))
    && s.requests[turn.owner].session == turn.session && ComesAfter(s.requests[turn.owner], t)
  }

  function CountOf(store: seq<Entry>, e: Entry): nat
    decreases |store|
  {
    if store == [] then 0
    else CountOf(store[..|store| - 1], e) + if store[|store| - 1] == e then 1 else 0
  }

  /** The turns a request has waited for are over, and none was waited for twice. */
  predicate WaitsOk(s: Sys, r: Request) {
    && (forall k :: 0 <= k < |r.waits| ==> r.waits[k] < |s.turns| && s.turns[r.waits[k]].done == 1)
    && (forall k, l :: 0 <= k < l < |r.waits| ==> r.waits[k] != r.waits[l])
  }

  predicate PcOk(s: Sys, i: nat, r: Request) {
    match r.pc
    case Facing(t) => t < |s.turns| && t !in r.waits && s.turns[t].session == r.session && ComesAfter(r, t)
    case Waiting(t) => t < |s.turns| && t !in r.waits && s.turns[t].session == r.session && ComesAfter(r, t)
    case Owning(t, _) => t < |s.turns| && s.turns[t].owner == i && s.turns[t].session == r.session
    case Finished(SteeredInto(t)) =>
      && t < |s.turns| && s.turns[t].session == r.session && ComesAfter(r, t)
      && r.row.Some? && Late(r.text, r.row.value) in s.turns[t].accepted
    case _ => true
  }

  /** The turn that a follow-up was started for is over. */
  predicate OriginOk(s: Sys, r: Request) {
    r.origin.Some? ==>
      && r.origin.value < |s.turns| && s.turns[r.origin.value].session == r.session
      && s.turns[r.origin.value].resumed.Some?
  }

  predicate StoreOk(s: Sys, i: nat, r: Request) {
    && (r.row.Some? ==> Holds(s, r.row.value, r.text, r.session))
    && (r.row.Some? && r.origin.None? ==> s.store[r.row.value] == Said(i))
    && (r.origin.Some? ==> r.row.Some?)
    && CountOf(s.store, Said(i)) == if r.origin.None? && r.row.Some? then 1 else 0
  }

  ghost predicate RequestOk(s: Sys, i: nat)
    requires i < |s.requests|
  {
    var r := s.requests[i];
    WaitsOk(s, r) && PcOk(s, i, r) && StoreOk(s, i, r) && OriginOk(s, r)
  }

  ghost predicate RegistryOk(s: Sys) {
    forall session :: session in s.registry ==>
      s.registry[session] < |s.turns| && s.turns[s.registry[session]].session == session
  }

  ghost predicate StoredByKnown(s: Sys) {
    forall k :: 0 <= k < |s.store| ==>
      if s.store[k].Said? then s.store[k].author < |s.requests| else s.store[k].turn < |s.turns|
  }

  ghost predicate TurnsInOrder(s: Sys) {
    forall t, u :: 0 <= t < u < |s.turns| ==> LaterOk(s, t, u)
  }

  ghost predicate Inv(s: Sys) {
    && (forall t :: 0 <= t < |s.turns| ==> TurnOk(s, t))
    && (forall i :: 0 <= i < |s.requests| ==> RequestOk(s, i))
    && RegistryOk(s) && StoredByKnown(s) && TurnsInOrder(s)
  }

  // ------------------------------------------------------------------ preservation

  /** A turn keeps its owner and session and forgets nothing it accepted; closed, released
      or resumed it stays so; it loads its history when nothing is being stored. */
  predicate Evolves(s: Sys, s': Sys, t: nat)
    requires t < |s.turns| && t < |s'.turns|
  {
    var a, b := s.turns[t], s'.turns[t];
    && a.session == b.session && a.owner == b.owner && a.accepted <= b.accepted
    && (a.box.closed ==> b.box.closed && b.accepted == a.accepted)
    && (a.done == 1 ==> b.done == 1)
    && (a.resumed.Some? ==> b.resumed == a.resumed)
    && (b.loaded == a.loaded || (b.loaded == Some(|s.store|) && s'.store == s.store))
    && (Registered(s', t) ==> Registered(s, t))
  }

  /** The store stays, or the message of request `i` or the reply of the running turn `t` is
      added. */
  predicate StoreGrows(s: Sys, s': Sys, i: nat, t: nat) {
    || s'.store == s.store || s'.store == s.store + [Said(i)]
    || (t < |s.turns| && Registered(s, t) && s'.store == s.store + [Replied(t)])
  }

  /** Nothing but request `i` and turn `t` changes. */
  ghost predicate Frame(s: Sys, s': Sys, i: nat, t: nat) {
    && i < |s.requests| <= |s'.requests| && |s.turns| <= |s'.turns|
    && (forall j :: 0 <= j < |s.requests| && j != i ==> s'.requests[j] == s.requests[j])
    && s'.requests[i] == s.requests[i].(row := s'.requests[i].row, pc := s'.requests[i].pc,
        waits := s'.requests[i].waits)
    && (forall u :: 0 <= u < |s.turns| && u != t ==> s'.turns[u] == s.turns[u])
    && (t < |s.turns| ==> Evolves(s, s', t))
    && StoreGrows(s, s', i, t)
  }

  lemma CountOfGrown(s: Sys, s': Sys, i: nat, t: nat, e: Entry)
    requires StoreGrows(s, s', i, t) && e != Said(i) && e != Replied(t)
    ensures CountOf(s'.store, e) == CountOf(s.store, e)
  {
  }

  lemma {:induction false} NotCounted(store: seq<Entry>, e: Entry, p: nat)
    requires p < |store| && CountOf(store, e) == 0
    ensures store[p] != e
    decreases |store|
  {
    if p < |store| - 1 {
      NotCounted(store[..|store| - 1], e, p);
    }
  }

  lemma HoldsStays(s: Sys, s': Sys, i: nat, t: nat, row: nat, text: string, session: nat)
    requires Frame(s, s', i, t) && Holds(s, row, text, session)
    ensures Holds(s', row, text, session) && s'.store[row] == s.store[row]
  {
  }

  lemma RowsStay(s: Sys, s': Sys, i: nat, t: nat, turn: Turn)
    requires Frame(s, s', i, t) && RowsOk(s, turn)
    ensures RowsOk(s', turn)
  {
    forall k | 0 <= k < |turn.accepted| ensures Holds(s', turn.accepted[k].row, turn.accepted[k].text, turn.session) {
      HoldsStays(s, s', i, t, turn.accepted[k].row, turn.accepted[k].text, turn.session);
    }
  }

  /** A request that does not change itself. */
  lemma OtherRequest(s: Sys, s': Sys, i: nat, t: nat, j: nat)
    requires Frame(s, s', i, t) && j < |s.requests| && s'.requests[j] == s.requests[j]
    requires CountOf(s'.store, Said(j)) == CountOf(s.store, Said(j))
    requires RequestOk(s, j)
    ensures RequestOk(s', j)
  {
    var r := s.requests[j];
    WaitsStay(s, s', i, t, r);
    assert PcOk(s', j, r) by {
      if r.pc.Finished? && r.pc.outcome.SteeredInto? {
        assert s.turns[r.pc.outcome.turn].accepted <= s'.turns[r.pc.outcome.turn].accepted;
      }
    }
    if r.row.Some? {
      HoldsStays(s, s', i, t, r.row.value, r.text, r.session);
    }
  }

  lemma WaitsStay(s: Sys, s': Sys, i: nat, t: nat, r: Request)
    requires Frame(s, s', i, t) && WaitsOk(s, r)
    ensures WaitsOk(s', r)
  {
    forall k | 0 <= k < |r.waits| ensures r.waits[k] < |s'.turns| && s'.turns[r.waits[k]].done == 1 {
      if r.waits[k] != t {
        assert s'.turns[r.waits[k]] == s.turns[r.waits[k]];
      }
    }
  }

  lemma OtherTurn(s: Sys, s': Sys, i: nat, t: nat, u: nat)
    requires Frame(s, s', i, t) && u < |s.turns| && u != t
    requires TurnOk(s, u) && (s.turns[u].owner != i || s'.requests[i].pc == s.requests[i].pc)
    requires Registered(s', u) == Registered(s, u)
    ensures TurnOk(s', u)
  {
    assert s'.turns[u] == s.turns[u];
    RowsStay(s, s', i, t, s.turns[u]);
    OtherReply(s, s', i, t, u);
  }

  lemma OtherReply(s: Sys, s': Sys, i: nat, t: nat, u: nat)
    requires Frame(s, s', i, t) && u < |s.turns| && u != t
    requires TurnOk(s, u) && (s.turns[u].owner != i || s'.requests[i].pc == s.requests[i].pc)
    ensures ReplyOk(s', u)
  {
    CountOfGrown(s, s', i, t, Replied(u));
    assert s'.turns[u] == s.turns[u] && s'.requests[s.turns[u].owner].pc == s.requests[s.turns[u].owner].pc;
    var turn := s.turns[u];
    if !turn.failed {
      forall p, k | 0 <= p < |s'.store| && s'.store[p] == Replied(u) && 0 <= k < |turn.accepted|
        ensures turn.accepted[k].row < p
      {
        assert p < |s.store| && s.store[p] == Replied(u);
      }
    }
  }

  /** What an earlier turn accepted and replied does not change any more. */
  lemma EarlierStays(s: Sys, s': Sys, i: nat, t: nat, a: nat, n: nat)
    requires Frame(s, s', i, t) && a < |s.turns| && LoadsAll(s, a, n)
    requires s.turns[a].box.closed && !Registered(s, a)
    ensures s'.turns[a].box.closed && s'.turns[a].session == s.turns[a].session && LoadsAll(s', a, n)
  {
    assert s'.turns[a].accepted == s.turns[a].accepted;
    forall p | 0 <= p < |s'.store| && s'.store[p] == Replied(a) ensures p < n {
      assert p < |s.store| && s.store[p] == Replied(a);
    }
  }

  lemma PairKept(s: Sys, s': Sys, i: nat, t: nat, a: nat, b: nat)
    requires Inv(s) && Frame(s, s', i, t) && a < b < |s.turns|
    requires forall u :: 0 <= u < |s.turns| && u != t ==> Registered(s', u) == Registered(s, u)
    ensures LaterOk(s', a, b)
  {
    assert LaterOk(s, a, b) && TurnOk(s, a);
    if s.turns[a].session == s.turns[b].session {
      assert LoadsAll(s, a, |s.store|);
      EarlierStays(s, s', i, t, a, |s.store|);
      if s.turns[b].loaded.Some? {
        EarlierStays(s, s', i, t, a, s.turns[b].loaded.value);
      }
      assert s'.turns[b].loaded == s.turns[b].loaded || s'.turns[b].loaded == Some(|s.store|);
    }
  }

  /** The invariant holds after a step when it holds of what the step touched. */
  lemma Framed(s: Sys, s': Sys, i: nat, t: nat)
    requires Inv(s) && Frame(s, s', i, t)
    requires s'.requests[i].pc == s.requests[i].pc || forall u :: 0 <= u < |s.turns| && u != t ==> s.turns[u].owner != i
    requires forall u :: 0 <= u < |s.turns| && u != t ==> Registered(s', u) == Registered(s, u)
    requires forall u :: |s.turns| <= u < |s'.turns| ==> TurnOk(s', u)
    requires forall a, u :: 0 <= a < u < |s'.turns| && |s.turns| <= u ==> LaterOk(s', a, u)
    requires |s'.requests| == |s.requests|
    requires t < |s.turns| ==> TurnOk(s', t)
    requires RequestOk(s', i) && RegistryOk(s')
    ensures Inv(s')
  {
    forall u | 0 <= u < |s'.turns| ensures TurnOk(s', u) {
      if u < |s.turns| && u != t {
        OtherTurn(s, s', i, t, u);
      }
    }
    forall j | 0 <= j < |s'.requests| ensures RequestOk(s', j) {
      if j != i {
        CountOfGrown(s, s', i, t, Said(j));
        OtherRequest(s, s', i, t, j);
      }
    }
    forall a, b | 0 <= a < b < |s'.turns| ensures LaterOk(s', a, b) {
      if b < |s.turns| {
        PairKept(s, s', i, t, a, b);
      }
    }
  }

  /** A request owns the turn its program counter names, and no other. */
  lemma OwnsOnly(s: Sys, i: nat, u: nat)
    requires Inv(s) && i < |s.requests| && u < |s.turns| && s.turns[u].owner == i
    ensures s.requests[i].pc == Finished(Ran) || (s.requests[i].pc.Owning? && s.requests[i].pc.turn == u)
  {
    assert TurnOk(s, u);
  }

  lemma {:induction false} CountOfStranger(store: seq<Entry>, e: Entry)
    requires forall k :: 0 <= k < |store| ==> store[k] != e
    ensures CountOf(store, e) == 0
    decreases |store|
  {
    if store != [] {
      CountOfStranger(store[..|store| - 1], e);
    }
  }

  /** Only the program counter of a request changes, and it owns no turn. */
  lemma MovingKeeps(s: Sys, i: nat, pc: Pc)
    requires Inv(s) && i < |s.requests|
    requires forall u :: 0 <= u < |s.turns| ==> s.turns[u].owner != i
    requires PcOk(s, i, s.requests[i].(pc := pc)) && !pc.Owning?
    ensures Inv(SetPc(s, i, pc))
  {
    var s' := SetPc(s, i, pc);
    assert RequestOk(s, i);
    assert RequestOk(s', i);
    Framed(s, s', i, |s.turns|);
  }

  /** A new request joins. */
  lemma JoinedKeeps(s: Sys, r: Request)
    requires Inv(s) && r.pc == Arriving && r.waits == [] && OriginOk(s, r)
    requires r.origin.Some? <==> r.row.Some?
    requires r.row.Some? ==> Holds(s, r.row.value, r.text, r.session)
    ensures Inv(s.(requests := s.requests + [r]))
  {
    var s' := s.(requests := s.requests + [r]);
    CountOfStranger(s.store, Said(|s.requests|));
    forall u | 0 <= u < |s'.turns| ensures TurnOk(s', u) {
      assert TurnOk(s, u);
      assert RowsOk(s', s'.turns[u]);
      assert ReplyOk(s', u);
    }
    forall j | 0 <= j < |s'.requests| ensures RequestOk(s', j) {
      if j < |s.requests| {
        assert RequestOk(s, j);
      }
    }
    forall a, b | 0 <= a < b < |s'.turns| ensures LaterOk(s', a, b) {
      assert LaterOk(s, a, b);
      assert s'.turns[b].loaded.Some? && LoadsAll(s, a, s'.turns[b].loaded.value) ==>
             LoadsAll(s', a, s'.turns[b].loaded.value);
    }
  }

  lemma AcquiredKeeps(s: Sys, i: nat)
    requires Inv(s) && i < |s.requests| && s.requests[i].pc == Arriving
    ensures Inv(Acquired(s, i))
  {
    var r := s.requests[i];
    assert RequestOk(s, i);
    forall u | 0 <= u < |s.turns| ensures s.turns[u].owner != i {
      if s.turns[u].owner == i {
        OwnsOnly(s, i, u);
      }
    }
    if r.session in s.registry {
      var t := s.registry[r.session];
      RegisteredIsNotDone(s, r.session);
      RegisteredIsLatest(s, i, t);
      MovingKeeps(s, i, Facing(t));
    } else {
      NewTurnKeeps(s, i);
    }
  }

  lemma NewTurnKeeps(s: Sys, i: nat)
    requires Inv(s) && i < |s.requests| && s.requests[i].pc == Arriving && s.requests[i].session !in s.registry
    requires forall u :: 0 <= u < |s.turns| ==> s.turns[u].owner != i
    ensures Inv(Acquired(s, i))
  {
    var s' := Acquired(s, i);
    var n := |s.turns|;
    assert RequestOk(s, i);
    forall u | 0 <= u < n ensures Registered(s', u) == Registered(s, u) {
      assert TurnOk(s, u);
    }
    forall p | 0 <= p < |s.store| ensures s.store[p] != Replied(n) {
      assert s.store[p].Replied? ==> s.store[p].turn < n;
    }
    CountOfStranger(s.store, Replied(n));
    assert LateIn([]) + [] + [] == [];
    assert ReplyOk(s', n);
    assert TurnOk(s', n);
    forall a | 0 <= a < n ensures LaterOk(s', a, n) {
      assert TurnOk(s, a);
    }
    assert RequestOk(s', i);
    Framed(s, s', i, n);
  }

  /** The registered turn is the latest of its session. */
  lemma RegisteredIsLatest(s: Sys, i: nat, t: nat)
    requires Inv(s) && i < |s.requests| && t < |s.turns| && Registered(s, t) &&
             s.turns[t].session == s.requests[i].session
    ensures ComesAfter(s.requests[i], t)
  {
    var r := s.requests[i];
    assert RequestOk(s, i);
    if r.origin.Some? {
      var o := r.origin.value;
      assert TurnOk(s, o) && TurnOk(s, t);
      assert t < o ==> LaterOk(s, t, o);
    }
  }

  /** A registered turn has not woken its waiters, so nobody has finished waiting for it. */
  lemma RegisteredIsNotDone(s: Sys, session: nat)
    requires Inv(s) && session in s.registry
    ensures var t := s.registry[session];
            && t < |s.turns| && s.turns[t].session == session && s.turns[t].done == 0
            && forall j :: 0 <= j < |s.requests| ==> t !in s.requests[j].waits
  {
    var t := s.registry[session];
    assert TurnOk(s, t);
    forall j | 0 <= j < |s.requests| ensures t !in s.requests[j].waits {
      assert RequestOk(s, j);
    }
  }

  lemma SavedKeeps(s: Sys, i: nat)
    requires Inv(s) && i < |s.requests| && s.requests[i].row == None
    ensures Inv(Saved(s, i))
  {
    var s' := Saved(s, i);
    assert RequestOk(s, i);
    assert Frame(s, s', i, |s.turns|);
    WaitsStay(s, s', i, |s.turns|, s.requests[i]);
    assert RequestOk(s', i);
    Framed(s, s', i, |s.turns|);
  }

  // ---------------------------------------------------- steps of a request without a turn

  lemma NotAnOwner(s: Sys, i: nat)
    requires Inv(s) && i < |s.requests| && !s.requests[i].pc.Owning? && !s.requests[i].pc.Finished?
    ensures forall u :: 0 <= u < |s.turns| ==> s.turns[u].owner != i
  {
    forall u | 0 <= u < |s.turns| ensures s.turns[u].owner != i {
      if s.turns[u].owner == i {
        OwnsOnly(s, i, u);
      }
    }
  }

  /** The message is accepted: it enters the ledger of the turn. */
  lemma AcceptedTurn(s: Sys, i: nat, t: nat, row: nat)
    requires Inv(s) && i < |s.requests| && t < |s.turns|
    requires s.requests[i].pc == Facing(t) && s.requests[i].row == Some(row)
    requires !s.turns[t].box.closed
    ensures TurnOk(Pushing(s, i, t, row), t)
  {
    var s' := Pushing(s, i, t, row);
    var turn := s.turns[t];
    NotAnOwner(s, i);
    assert RequestOk(s, i) && TurnOk(s, t);
    AcceptedLedger(turn, Late(s.requests[i].text, row));
    assert RowsOk(s', s'.turns[t]);
    if !turn.failed {
      forall p | 0 <= p < |s.store| ensures s.store[p] != Replied(t) {
        NotCounted(s.store, Replied(t), p);
      }
    }
    assert ReplyOk(s', t);
    assert Registered(s', t) == Registered(s, t) && Held(s', t) == Held(s, t);
  }

  lemma AcceptedLedger(turn: Turn, late: Late)
    requires Ledger(turn) && !turn.box.closed
    ensures Ledger(turn.(box := Pushed(turn.box, late), accepted := turn.accepted + [late]))
  {
    Rejoin(LateIn(turn.box.placed) + turn.left, turn.box.pending, [late]);
  }

  lemma AcceptedKeeps(s: Sys, i: nat, t: nat, row: nat)
    requires Inv(s) && i < |s.requests| && t < |s.turns|
    requires s.requests[i].pc == Facing(t) && s.requests[i].row == Some(row)
    requires !s.turns[t].box.closed
    ensures Inv(Pushing(s, i, t, row))
  {
    var s' := Pushing(s, i, t, row);
    NotAnOwner(s, i);
    assert RequestOk(s, i);
    AcceptedTurn(s, i, t, row);
    assert s'.turns[t].accepted[|s.turns[t].accepted|] == Late(s.requests[i].text, row);
    WaitsStay(s, s', i, t, s.requests[i]);
    assert RequestOk(s', i);
    Framed(s, s', i, t);
  }

  lemma FacingKeeps(s: Sys, i: nat, t: nat, a: Action)
    requires Inv(s) && i < |s.requests| && t < |s.turns| && s.requests[i].pc == Facing(t)
    requires FacingStep(s, i, t, a).Some?
    ensures Inv(FacingStep(s, i, t, a).value)
  {
    var r := s.requests[i];
    NotAnOwner(s, i);
    assert RequestOk(s, i);
    if r.row.None? && r.isStop {
      InterruptedKeeps(s, t);
      var s1 := SetTurn(s, t, s.turns[t].(interrupted := true));
      MovingKeeps(s1, i, Waiting(t));
    } else if r.row.None? {
      if a.ok {
        SavedKeeps(s, i);
      } else {
        MovingKeeps(s, i, Finished(GaveUp));
      }
    } else if s.turns[t].box.closed {
      MovingKeeps(s, i, Waiting(t));
    } else {
      AcceptedKeeps(s, i, t, r.row.value);
    }
  }

  lemma InterruptedKeeps(s: Sys, t: nat)
    requires Inv(s) && t < |s.turns|
    ensures Inv(SetTurn(s, t, s.turns[t].(interrupted := true)))
  {
    var s' := SetTurn(s, t, s.turns[t].(interrupted := true));
    assert TurnOk(s, t);
    var i := s.turns[t].owner;
    assert RequestOk(s, i);
    assert Frame(s, s', i, t);
    OtherRequest(s, s', i, t, i);
    assert ReplyOk(s', t);
    assert TurnOk(s', t);
    Framed(s, s', i, t);
  }

  lemma WaitingKeeps(s: Sys, i: nat, t: nat, a: Action)
    requires Inv(s) && i < |s.requests| && t < |s.turns| && s.requests[i].pc == Waiting(t)
    requires WaitingStep(s, i, t, a).Some?
    ensures Inv(WaitingStep(s, i, t, a).value)
  {
    NotAnOwner(s, i);
    assert RequestOk(s, i) && TurnOk(s, t);
    if a.GiveUp? {
      MovingKeeps(s, i, Finished(GaveUp));
    } else {
      var s' := WaitingStep(s, i, t, a).value;
      assert WaitsOk(s', s'.requests[i]);
      assert RequestOk(s', i);
      Framed(s, s', i, |s.turns|);
    }
  }

  // -------------------------------------------------------------- steps of a turn's owner

  lemma OwnsNoOther(s: Sys, i: nat, t: nat)
    requires Inv(s) && i < |s.requests| && s.requests[i].pc.Owning? && s.requests[i].pc.turn == t
    ensures t < |s.turns| && s.turns[t].owner == i && TurnOk(s, t) && RequestOk(s, i)
    ensures forall u :: 0 <= u < |s.turns| && u != t ==> s.turns[u].owner != i
  {
    assert RequestOk(s, i) && TurnOk(s, t);
    forall u | 0 <= u < |s.turns| && u != t ensures s.turns[u].owner != i {
      if s.turns[u].owner == i {
        OwnsOnly(s, i, u);
      }
    }
  }

  /** The owner moves on and its turn with it, and perhaps the reply is stored. */
  function Moved(s: Sys, i: nat, t: nat, turn: Turn, pc: Pc, reply: bool): Sys
    requires i < |s.requests| && t < |s.turns|
  {
    SetPc(SetTurn(Kept(s, t, reply), t, turn), i, pc)
  }

  lemma OwnerStays(s: Sys, i: nat, t: nat, turn: Turn, pc: Pc, reply: bool)
    requires i < |s.requests| && t < |s.turns| && RequestOk(s, i) && Frame(s, Moved(s, i, t, turn, pc, reply), i, t)
    requires PcOk(SetTurn(s, t, turn), i, s.requests[i].(pc := pc))
    ensures RequestOk(Moved(s, i, t, turn, pc, reply), i)
  {
    var s', r := Moved(s, i, t, turn, pc, reply), s.requests[i];
    WaitsStay(s, s', i, t, r);
    if r.row.Some? {
      HoldsStays(s, s', i, t, r.row.value, r.text, r.session);
    }
    CountOfKept(s, t, reply, Said(i));
  }

  lemma OwnerMoves(s: Sys, i: nat, t: nat, turn: Turn, pc: Pc, reply: bool)
    requires Inv(s) && i < |s.requests| && s.requests[i].pc.Owning? && s.requests[i].pc.turn == t
    requires t < |s.turns| && s.turns[t].owner == i && Evolves(s, Moved(s, i, t, turn, pc, reply), t)
    requires reply ==> Registered(s, t)
    requires Ledger(turn) && RowsOk(s, turn) && QueueOk(turn) && ReplyOk(Moved(s, i, t, turn, pc, reply), t)
    requires OwnerOk(turn, t, pc) && PcOk(SetTurn(s, t, turn), i, s.requests[i].(pc := pc))
    requires Held(Moved(s, i, t, turn, pc, reply), t) <==> Held(s, t)
    ensures Inv(Moved(s, i, t, turn, pc, reply))
  {
    var s' := Moved(s, i, t, turn, pc, reply);
    OwnsNoOther(s, i, t);
    assert Frame(s, s', i, t);
    RowsStay(s, s', i, t, turn);
    assert TurnOk(s', t);
    OwnerStays(s, i, t, turn, pc, reply);
    Framed(s, s', i, t);
  }

  lemma CountOfKept(s: Sys, t: nat, reply: bool, e: Entry)
    ensures CountOf(Kept(s, t, reply).store, e) == CountOf(s.store, e) + if reply && e == Replied(t) then 1 else 0
  {
  }

  /** A move without a reply keeps what is known of replies. */
  lemma NoReply(s: Sys, i: nat, t: nat, turn: Turn, pc: Pc)
    requires i < |s.requests| && t < |s.turns| && s.turns[t].owner == i == turn.owner && ReplyOk(s, t)
    requires turn.failed == s.turns[t].failed && turn.accepted == s.turns[t].accepted
    requires s.turns[t].box.closed ==> turn.box.closed
    requires Unreplied(pc) ==> Unreplied(s.requests[i].pc)
    ensures ReplyOk(Moved(s, i, t, turn, pc, false), t)
  {
  }

  lemma DrainedLedger(turn: Turn)
    requires Ledger(turn)
    ensures Ledger(Drained(turn)) && Drained(turn).box.pending == [] && Drained(turn).box.closed
  {
    var d := Drained(turn);
    assert LateIn(turn.box.placed) + (turn.left + turn.box.pending) + [] ==
           LateIn(turn.box.placed) + turn.left + turn.box.pending;
  }

  /** What the next model call is shown leaves the queue for good. */
  lemma DeliveredLedger(turn: Turn, n: nat)
    requires Ledger(turn) && (turn.left == [] || turn.box.pending == [])
    ensures Ledger(turn.(box := Delivered(turn.box, n)))
  {
    var d := Delivered(turn.box, n);
    assert LateIn(d.placed) == LateIn(turn.box.placed) + turn.box.pending;
    assert LateIn(turn.box.placed) + turn.box.pending + turn.left + [] ==
           LateIn(turn.box.placed) + turn.left + turn.box.pending;
  }

  lemma OpeningKeeps(s: Sys, i: nat, t: nat, ok: bool)
    requires Inv(s) && i < |s.requests| && s.requests[i].pc == Owning(t, Opening)
    ensures Inv(Opened(s, i, t, ok))
  {
    OwnsNoOther(s, i, t);
    var saves := s.requests[i].row.None? && ok;
    if saves {
      SavedKeeps(s, i);
    }
    var s1 := if saves then Saved(s, i) else s;
    var pc := Owning(t, if s.requests[i].row.Some? || ok then Loading else Returned);
    OwnsNoOther(s1, i, t);
    assert s1.turns[t := s.turns[t]] == s1.turns;
    NoReply(s1, i, t, s.turns[t], pc);
    OwnerMoves(s1, i, t, s.turns[t], pc, false);
  }

  lemma LoadKeeps(s: Sys, i: nat, t: nat)
    requires Inv(s) && i < |s.requests| && s.requests[i].pc == Owning(t, Loading) && t < |s.turns|
    ensures Inv(SetPc(SetTurn(s, t, s.turns[t].(loaded := Some(|s.store|))), i, Owning(t, Running)))
  {
    OwnsNoOther(s, i, t);
    var turn := s.turns[t].(loaded := Some(|s.store|));
    NoReply(s, i, t, turn, Owning(t, Running));
    OwnerMoves(s, i, t, turn, Owning(t, Running), false);
  }

  lemma AskKeeps(s: Sys, i: nat, t: nat, length: nat)
    requires Inv(s) && i < |s.requests| && s.requests[i].pc == Owning(t, Running) && t < |s.turns|
    ensures Inv(SetTurn(s, t, s.turns[t].(box := Delivered(s.turns[t].box, length))))
  {
    OwnsNoOther(s, i, t);
    DeliveredLedger(s.turns[t], length);
    var turn := s.turns[t].(box := Delivered(s.turns[t].box, length));
    NoReply(s, i, t, turn, Owning(t, Running));
    assert s.requests[i := s.requests[i].(pc := Owning(t, Running))] == s.requests;
    OwnerMoves(s, i, t, turn, Owning(t, Running), false);
  }

  lemma SetupFailedKeeps(s: Sys, i: nat, t: nat, ok: bool)
    requires Inv(s) && i < |s.requests| && t < |s.turns|
    requires s.requests[i].pc == Owning(t, Loading) || s.requests[i].pc == Owning(t, Running)
    ensures Inv(SetupFailed(s, i, t, ok))
  {
    OwnsNoOther(s, i, t);
    CountOfKept(s, t, ok, Replied(t));
    OwnerMoves(s, i, t, s.turns[t].(failed := true), Owning(t, Returned), ok);
  }

  lemma StoreKeeps(s: Sys, i: nat, t: nat, ok: bool)
    requires Inv(s) && i < |s.requests| && t < |s.turns| && s.requests[i].pc == Owning(t, Storing)
    ensures Inv(SetPc(Kept(s, t, ok), i, Owning(t, Returned)))
  {
    OwnsNoOther(s, i, t);
    CountOfKept(s, t, ok, Replied(t));
    forall p | 0 <= p < |s.store| ensures s.store[p] != Replied(t) {
      NotCounted(s.store, Replied(t), p);
    }
    assert s.turns[t := s.turns[t]] == s.turns;
    assert ReplyOk(Moved(s, i, t, s.turns[t], Owning(t, Returned), ok), t);
    OwnerMoves(s, i, t, s.turns[t], Owning(t, Returned), ok);
  }

  lemma DrainKeeps(s: Sys, i: nat, t: nat, phase: Phase)
    requires Inv(s) && i < |s.requests| && t < |s.turns|
    requires || (s.requests[i].pc == Owning(t, Running) && phase == Storing)
             || (s.requests[i].pc == Owning(t, Returned) && phase == Releasing)
    ensures Inv(SetPc(SetTurn(s, t, Drained(s.turns[t])), i, Owning(t, phase)))
  {
    OwnsNoOther(s, i, t);
    DrainedLedger(s.turns[t]);
    NoReply(s, i, t, Drained(s.turns[t]), Owning(t, phase));
    OwnerMoves(s, i, t, Drained(s.turns[t]), Owning(t, phase), false);
  }

  lemma UnregisterKeeps(s: Sys, i: nat, t: nat)
    requires Inv(s) && i < |s.requests| && t < |s.turns| && s.requests[i].pc == Owning(t, Releasing)
    ensures Inv(TurnStep(s, i, t, Releasing, Unregister(i)).value)
  {
    var s' := TurnStep(s, i, t, Releasing, Unregister(i)).value;
    OwnsNoOther(s, i, t);
    assert Registered(s, t) && !Held(s', t);
    forall u | 0 <= u < |s.turns| && u != t ensures Registered(s', u) == Registered(s, u) {
      if s.turns[u].session == s.turns[t].session {
        assert !Registered(s, u);
      }
    }
    assert ReplyOk(s', t);
    assert TurnOk(s', t);
    assert WaitsOk(s', s'.requests[i]);
    assert RequestOk(s', i);
    Framed(s, s', i, t);
  }

  lemma SignalKeeps(s: Sys, i: nat, t: nat)
    requires Inv(s) && i < |s.requests| && t < |s.turns| && s.requests[i].pc == Owning(t, Signalling)
    ensures Inv(SetPc(SetTurn(s, t, s.turns[t].(done := s.turns[t].done + 1)), i, Owning(t, Resuming)))
  {
    OwnsNoOther(s, i, t);
    var turn := s.turns[t].(done := s.turns[t].done + 1);
    NoReply(s, i, t, turn, Owning(t, Resuming));
    OwnerMoves(s, i, t, turn, Owning(t, Resuming), false);
  }

  lemma ResumeKeeps(s: Sys, i: nat, t: nat)
    requires Inv(s) && i < |s.requests| && t < |s.turns| && s.requests[i].pc == Owning(t, Resuming)
    ensures Inv(Resumed(s, i, t))
  {
    OwnsNoOther(s, i, t);
    var turn := s.turns[t].(resumed := Some(s.turns[t].left));
    var ended := SetPc(SetTurn(s, t, turn), i, Finished(Ran));
    NoReply(s, i, t, turn, Finished(Ran));
    OwnerMoves(s, i, t, turn, Finished(Ran), false);
    if turn.left != [] {
      var late := turn.left[|turn.left| - 1];
      assert turn.accepted[|LateIn(turn.box.placed)| + |turn.left| - 1] == late;
      assert TurnOk(ended, t) && Holds(ended, late.row, late.text, turn.session);
      JoinedKeeps(ended, FollowUp(s.requests[i], t, late));
    }
  }

  lemma TurnKeeps(s: Sys, i: nat, t: nat, phase: Phase, a: Action)
    requires Inv(s) && i < |s.requests| && t < |s.turns| && s.requests[i].pc == Owning(t, phase)
    requires TurnStep(s, i, t, phase, a).Some?
    ensures Inv(TurnStep(s, i, t, phase, a).value)
  {
    match phase
    case Opening => OpeningKeeps(s, i, t, a.ok);
    case Loading =>
      if a.Load? {
        LoadKeeps(s, i, t);
      } else {
        SetupFailedKeeps(s, i, t, a.ok);
      }
    case Running =>
      if a.Ask? {
        AskKeeps(s, i, t, a.length);
      } else if a.FailSetup? {
        SetupFailedKeeps(s, i, t, a.ok);
      } else {
        DrainKeeps(s, i, t, Storing);
      }
    case Storing => StoreKeeps(s, i, t, a.ok);
    case Returned => DrainKeeps(s, i, t, Releasing);
    case Releasing => UnregisterKeeps(s, i, t);
    case Signalling => SignalKeeps(s, i, t);
    case Resuming => ResumeKeeps(s, i, t);
  }

  lemma StepKeeps(s: Sys, a: Action)
    requires Inv(s) && Step(s, a).Some?
    ensures Inv(Step(s, a).value)
  {
    if a.Arrive? {
      JoinedKeeps(s, Request(a.session, a.text, a.isStop, None, None, Arriving, []));
    } else {
      match s.requests[a.i].pc
      case Arriving => AcquiredKeeps(s, a.i);
      case Facing(t) => FacingKeeps(s, a.i, t, a);
      case Waiting(t) => WaitingKeeps(s, a.i, t, a);
      case Owning(t, phase) => TurnKeeps(s, a.i, t, phase, a);
    }
  }

  /** Every interleaving keeps the invariant. */
  lemma {:induction false} EveryReachableStateIsSound(actions: seq<Action>)
    requires After(actions).Some?
    ensures Inv(After(actions).value)
    decreases |actions|
  {
    if actions != [] {
      EveryReachableStateIsSound(actions[..|actions| - 1]);
      StepKeeps(After(actions[..|actions| - 1]).value, actions[|actions| - 1]);
    }
  }

  // ------------------------------------------------------------------- what it means

  /** A request is running the session's turn. */
  predicate Runs(r: Request, session: nat) {
    r.session == session && r.pc.Owning? && !r.pc.phase.Signalling? && !r.pc.phase.Resuming?
  }

  /** At most one turn runs per session, whatever the interleaving. */
  lemma OneTurnPerSession(actions: seq<Action>, session: nat, i: nat, j: nat)
    requires After(actions).Some?
    requires var s := After(actions).value;
             i < |s.requests| && j < |s.requests| && Runs(s.requests[i], session) && Runs(s.requests[j], session)
    ensures i == j
  {
    var s := After(actions).value;
    EveryReachableStateIsSound(actions);
    assert RequestOk(s, i) && RequestOk(s, j);
    var t, u := s.requests[i].pc.turn, s.requests[j].pc.turn;
    assert TurnOk(s, t) && TurnOk(s, u);
    assert Held(s, t) && Held(s, u);
  }

  /** The waiters of a turn are woken at most once, and only after the registry has
      forgotten it; what the inbox accepted is then divided, in the order of arrival, between
      what the model was shown and what is kept for a follow-up. */
  lemma NoMessageIsStranded(actions: seq<Action>, t: nat)
    requires After(actions).Some? && t < |After(actions).value.turns|
    ensures var s := After(actions).value;
            var turn := s.turns[t];
            && turn.done <= 1
            && (turn.done == 1 ==>
                  && !Registered(s, t)
                  && turn.box.closed && turn.box.pending == []
                  && turn.accepted == LateIn(turn.box.placed) + turn.left
                  && (turn.resumed.Some? ==> turn.resumed.value == turn.left))
  {
    EveryReachableStateIsSound(actions);
    var s := After(actions).value;
    assert TurnOk(s, t);
    var turn := s.turns[t];
    assert LateIn(turn.box.placed) + turn.left + [] == LateIn(turn.box.placed) + turn.left;
  }

  /** A steered request has its message, under the row it was stored as, in that ledger. */
  lemma SteeredIsAccepted(actions: seq<Action>, i: nat, t: nat)
    requires After(actions).Some?
    requires var s := After(actions).value; i < |s.requests| && s.requests[i].pc == Finished(SteeredInto(t))
    ensures var s := After(actions).value;
            && t < |s.turns| && s.requests[i].row.Some?
            && Late(s.requests[i].text, s.requests[i].row.value) in s.turns[t].accepted
  {
    EveryReachableStateIsSound(actions);
    assert RequestOk(After(actions).value, i);
  }

  /** No user message is stored twice, however often its request loops; a follow-up stores
      none; and no request waits twice for the same turn. */
  lemma StoredOnce(actions: seq<Action>, i: nat)
    requires After(actions).Some? && i < |After(actions).value.requests|
    ensures var s := After(actions).value;
            var r := s.requests[i];
            && CountOf(s.store, Said(i)) == (if r.origin.None? && r.row.Some? then 1 else 0)
            && (forall k, l :: 0 <= k < l < |r.waits| ==> r.waits[k] != r.waits[l])
            && (r.pc.Waiting? ==> r.pc.turn !in r.waits)
  {
    EveryReachableStateIsSound(actions);
    assert RequestOk(After(actions).value, i);
  }

  function OwnersMove(i: nat, phase: Phase): Action {
    match phase
    case Opening => Open(i, true)
    case Loading => Load(i)
    case Running => EndDrive(i)
    case Storing => Store(i, true)
    case Returned => Drain(i)
    case Releasing => Unregister(i)
    case Signalling => Signal(i)
    case Resuming => Resume(i)
  }

  /** A step of a run in which nothing fails: no new request, no giving up, no failed setup
      or store, and no further model call. */
  predicate Smooth(a: Action) {
    && !a.Arrive? && !a.GiveUp? && !a.FailSetup? && !a.Ask?
    && (a.Persist? || a.Open? || a.Store? ==> a.ok)
  }

  lemma OwnerCanMove(s: Sys, i: nat)
    requires Inv(s) && i < |s.requests| && s.requests[i].pc.Owning?
    ensures Step(s, OwnersMove(i, s.requests[i].pc.phase)).Some?
  {
    assert RequestOk(s, i);
  }

  lemma FacingCanMove(s: Sys, i: nat) returns (a: Action)
    requires Inv(s) && i < |s.requests| && s.requests[i].pc.Facing?
    ensures Step(s, a).Some? && Smooth(a) && a.i == i
  {
    var r := s.requests[i];
    assert RequestOk(s, i);
    a := if r.row.Some? then Push(i) else if r.isStop then Interrupt(i) else Persist(i, true);
  }

  /** There is no deadlock: while a request is not finished it can take a step, or it waits
      for a turn whose owner can, and nothing has to fail for it. */
  lemma SomebodyCanMove(actions: seq<Action>, i: nat) returns (a: Action)
    requires After(actions).Some? && i < |After(actions).value.requests|
    requires !After(actions).value.requests[i].pc.Finished?
    ensures Step(After(actions).value, a).Some? && Smooth(a)
    ensures a.i == i || (After(actions).value.requests[i].pc.Waiting? &&
            After(actions).value.requests[i].pc.turn < |After(actions).value.turns| &&
            a.i == After(actions).value.turns[After(actions).value.requests[i].pc.turn].owner)
  {
    EveryReachableStateIsSound(actions);
    var s := After(actions).value;
    match s.requests[i].pc
    case Arriving => a := Acquire(i);
    case Facing(_) => a := FacingCanMove(s, i);
    case Owning(_, phase) =>
      a := OwnersMove(i, phase);
      OwnerCanMove(s, i);
    case Waiting(t) =>
      assert RequestOk(s, i) && TurnOk(s, t);
      if s.turns[t].done > 0 {
        a := Wake(i);
      } else {
        var o := s.turns[t].owner;
        a := OwnersMove(o, s.requests[o].pc.phase);
        OwnerCanMove(s, o);
      }
  }

  // ------------------------------------------------------------------- follow-up turns

  /** A request that follows up this message of turn `t`. */
  predicate Follows(r: Request, t: nat, late: Late) {
    r.origin == Some(t) && r.row == Some(late.row) && r.text == late.text
  }

  ghost predicate IsFollowedUp(s: Sys, t: nat, late: Late) {
    exists j :: 0 <= j < |s.requests| && Follows(s.requests[j], t, late)
  }

  /** Once `resume` has run with late messages, the last of them has a request of its own. */
  ghost predicate FollowedUp(s: Sys, t: nat)
    requires t < |s.turns|
  {
    var turn := s.turns[t];
    turn.resumed.Some? && turn.resumed.value != [] ==>
      IsFollowedUp(s, t, turn.resumed.value[|turn.resumed.value| - 1])
  }

  /** Requests stay, and what is stored stays in its row. */
  predicate Stays(s: Sys, s': Sys, j: nat)
    requires j < |s.requests|
  {
    && j < |s'.requests| && s'.requests[j].text == s.requests[j].text && s'.requests[j].origin == s.requests[j].origin
    && (s.requests[j].row.Some? ==> s'.requests[j].row == s.requests[j].row)
  }

  lemma FacingStays(s: Sys, i: nat, t: nat, a: Action, j: nat)
    requires i < |s.requests| && t < |s.turns| && j < |s.requests| && FacingStep(s, i, t, a).Some?
    ensures Stays(s, FacingStep(s, i, t, a).value, j)
  {
  }

  lemma TurnStays(s: Sys, i: nat, t: nat, phase: Phase, a: Action, j: nat)
    requires i < |s.requests| && t < |s.turns| && j < |s.requests| && TurnStep(s, i, t, phase, a).Some?
    ensures Stays(s, TurnStep(s, i, t, phase, a).value, j)
  {
  }

  lemma FollowUpsStay(s: Sys, a: Action, j: nat, t: nat, late: Late)
    requires Step(s, a).Some? && j < |s.requests| && Follows(s.requests[j], t, late)
    ensures j < |Step(s, a).value.requests| && Follows(Step(s, a).value.requests[j], t, late)
  {
    if !a.Arrive? {
      match s.requests[a.i].pc
      case Facing(u) => FacingStays(s, a.i, u, a, j);
      case Owning(u, phase) => TurnStays(s, a.i, u, phase, a, j);
      case _ =>
    }
  }

  /** No list is handed to `resume`. */
  predicate ResumesNone(s: Sys, s': Sys, u: nat)
    requires u < |s'.turns|
  {
    s'.turns[u].resumed == None || (u < |s.turns| && s'.turns[u].resumed == s.turns[u].resumed)
  }

  lemma FacingResumesNone(s: Sys, i: nat, t: nat, a: Action, u: nat)
    requires i < |s.requests| && t < |s.turns| && FacingStep(s, i, t, a).Some?
    requires u < |FacingStep(s, i, t, a).value.turns|
    ensures ResumesNone(s, FacingStep(s, i, t, a).value, u)
  {
  }

  lemma TurnResumesNone(s: Sys, i: nat, t: nat, phase: Phase, a: Action, u: nat)
    requires i < |s.requests| && t < |s.turns| && TurnStep(s, i, t, phase, a).Some?
    requires u < |TurnStep(s, i, t, phase, a).value.turns|
    ensures ResumesNone(s, TurnStep(s, i, t, phase, a).value, u)
            || (phase.Resuming? && a.Resume? && u == t &&
                TurnStep(s, i, t, phase, a).value.turns[u].resumed == Some(s.turns[t].left))
  {
  }

  /** A list is handed to `resume` in its own step only. */
  lemma ResumedByResume(s: Sys, a: Action, t: nat)
    requires Inv(s) && Step(s, a).Some? && t < |Step(s, a).value.turns|
    ensures var s' := Step(s, a).value;
            || ResumesNone(s, s', t)
            || (a.Resume? && a.i < |s.requests| && s.requests[a.i].pc == Owning(t, Resuming)
                && t < |s.turns| && s'.turns[t].resumed == Some(s.turns[t].left))
  {
    if !a.Arrive? {
      match s.requests[a.i].pc
      case Facing(u) => FacingResumesNone(s, a.i, u, a, t);
      case Owning(u, phase) => TurnResumesNone(s, a.i, u, phase, a, t);
      case _ =>
    }
  }

  lemma FollowedUpAfterStep(s: Sys, a: Action, t: nat)
    requires Inv(s) && Step(s, a).Some? && t < |Step(s, a).value.turns|
    requires t < |s.turns| ==> FollowedUp(s, t)
    ensures FollowedUp(Step(s, a).value, t)
  {
    var s' := Step(s, a).value;
    ResumedByResume(s, a, t);
    var resumed := s'.turns[t].resumed;
    if resumed.Some? && resumed.value != [] {
      var late := resumed.value[|resumed.value| - 1];
      if t < |s.turns| && resumed == s.turns[t].resumed {
        var j :| 0 <= j < |s.requests| && Follows(s.requests[j], t, late);
        FollowUpsStay(s, a, j, t, late);
      } else {
        assert s'.requests[|s.requests|] == FollowUp(s.requests[a.i], t, late);
        assert Follows(s'.requests[|s.requests|], t, late);
      }
    }
  }

  /** When messages came too late for their turn, the last that was accepted has a follow-up
      request. */
  lemma {:induction false} LateMessagesAreFollowedUp(actions: seq<Action>, t: nat)
    requires After(actions).Some? && t < |After(actions).value.turns|
    ensures FollowedUp(After(actions).value, t)
    decreases |actions|
  {
    if actions != [] {
      var before := actions[..|actions| - 1];
      EveryReachableStateIsSound(before);
      var s := After(before).value;
      if t < |s.turns| {
        LateMessagesAreFollowedUp(before, t);
      }
      FollowedUpAfterStep(s, actions[|actions| - 1], t);
    }
  }

  /** All that a turn accepted, read or late, and its reply are stored before a later turn of
      the session loads its history. What the load then takes of the rows, and the trimming
      leaves of them, is another matter. */
  lemma StoredBeforeLaterTurns(actions: seq<Action>, t: nat, u: nat, k: nat)
    requires After(actions).Some? && t < u < |After(actions).value.turns|
    requires var s := After(actions).value;
             s.turns[t].session == s.turns[u].session && s.turns[u].loaded.Some? && k < |s.turns[t].accepted|
    ensures var s := After(actions).value;
            var late := s.turns[t].accepted[k];
            && late.row < s.turns[u].loaded.value && Holds(s, late.row, late.text, s.turns[t].session)
            && forall p :: 0 <= p < |s.store| && s.store[p] == Replied(t) ==> p < s.turns[u].loaded.value
  {
    EveryReachableStateIsSound(actions);
    var s := After(actions).value;
    assert LaterOk(s, t, u) && TurnOk(s, t);
  }

  /** A follow-up runs, or is steered into, a turn behind the one it was started for. */
  lemma FollowUpsComeLater(actions: seq<Action>, j: nat, t: nat, u: nat)
    requires After(actions).Some?
    requires var s := After(actions).value;
             && j < |s.requests| && s.requests[j].origin == Some(t) && u < |s.turns|
             && (s.turns[u].owner == j || s.requests[j].pc == Finished(SteeredInto(u)))
    ensures var s := After(actions).value; t < u && s.turns[t].session == s.turns[u].session && s.turns[t].resumed.Some?
  {
    EveryReachableStateIsSound(actions);
    var s := After(actions).value;
    assert RequestOk(s, j) && TurnOk(s, u);
  }

  /** A turn stores at most one reply, and a message that came too late for it stands in
      front of this reply, unless the turn failed before it began. */
  lemma LateMessagesPrecedeReply(actions: seq<Action>, t: nat, p: nat, k: nat)
    requires After(actions).Some? && t < |After(actions).value.turns|
    requires var s := After(actions).value;
             && p < |s.store| && s.store[p] == Replied(t) && !s.turns[t].failed
             && s.turns[t].done > 0 && k < |s.turns[t].left|
    ensures var s := After(actions).value;
            s.turns[t].left[k].row < p && CountOf(s.store, Replied(t)) == 1
  {
    EveryReachableStateIsSound(actions);
    var s := After(actions).value;
    assert TurnOk(s, t);
    var turn := s.turns[t];
    assert turn.accepted[|LateIn(turn.box.placed)| + k] == turn.left[k];
    if CountOf(s.store, Replied(t)) == 0 {
      NotCounted(s.store, Replied(t), p);
    }
  }
}
