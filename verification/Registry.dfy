/** The objects behind the protocol: a running turn, and the registry of the running turns
    (internal/agent/steer.go). */
module Registry {
  import opened Util
  import opened Inbox

  class ActiveRun {
    const steer: Steerer
    var interrupted: bool
    var cancelled: bool
    var done: bool       // the channel its waiters read is closed
    var left: seq<Late>  // accepted, but never read by the model

    constructor ()
      ensures fresh(steer) && steer.State() == NEW_BOX
      ensures !interrupted && !cancelled && !done && left == []
    {
      steer := new Steerer();
      interrupted, cancelled, done, left := false, false, false, [];
    }

    method Interrupt()
      modifies this`interrupted, this`cancelled
      ensures interrupted && cancelled
    {
      interrupted := true;
      cancelled := true;
    }

    /** Closes the inbox and sets aside what it still holds; a second time adds nothing. */
    method SetAside()
      modifies this`left, steer
      ensures steer.State() == Closed(old(steer.State()))
      ensures left == old(left) + old(steer.pending)
    {
      var rest := steer.Close();
      left := left + rest;
    }
  }

  class RunRegistry {
    var runs: map<nat, ActiveRun>

    constructor ()
      ensures runs == map[]
    {
      runs := map[];
    }

    /** A new turn for the session, or the one already running. */
    method Acquire(id: nat) returns (r: ActiveRun, owner: bool)
      modifies this
      ensures owner <==> id !in old(runs)
      ensures owner ==> fresh(r) && fresh(r.steer) && !r.done && r.left == [] && r.steer.State() == NEW_BOX
      ensures !owner ==> r == old(runs)[id]
      ensures runs == old(runs)[id := r]
    {
      if id in runs {
        r, owner := runs[id], false;
        assert runs == runs[id := r];
        return;
      }
      r := new ActiveRun();
      owner := true;
      runs := runs[id := r];
    }

    /** Forgets a finished turn, then wakes everything that waits for it. A channel cannot
        be closed twice. */
    method Release(id: nat, r: ActiveRun)
      requires !r.done
      modifies this, r`done
      ensures r.done
      ensures runs == if id in old(runs) && old(runs)[id] == r then old(runs) - {id} else old(runs)
    {
      if id in runs && runs[id] == r {
        runs := runs - {id};
      }
      r.done := true;
    }
  }
}
