/**
 The call budget of a turn (internal/agent/budget.go): which model answers the next call,
 and with what transcript.
 */
module Budget {
  import opened Util
  import opened Transcript
  import opened Inbox

  const BUDGET_WARN_CALLS: int := 3

  function GraphStepsFor(n: int): int {
    2 * n + 10
  }

  /** Whether the model of the next call has tools, and the transcript it is shown. */
  datatype Choice = Choice(tools: bool, transcript: seq<Msg>)

  predicate Warns(n: nat, max: int) {
    n < max && max - n + 1 <= BUDGET_WARN_CALLS && max > BUDGET_WARN_CALLS + 1
  }

  /** The choice for the n-th call, the calls being numbered from one. */
  function Picked(n: nat, max: int, bound: bool, spliced: seq<Msg>): Choice {
    if !bound then Choice(false, spliced)
    else if n >= max then Choice(false, spliced + [Noticed(WrapUp, "")])
    else if Warns(n, max) then Choice(true, spliced + [Noticed(CallsLeft(max - n + 1), "")])
    else Choice(true, spliced)
  }

  /** The warned calls are the two before the last permitted one, in budgets of at least
      five calls: one fewer than the comment on the constant says. */
  lemma WarnedCalls(n: nat, max: int)
    ensures Warns(n, max) <==> max >= 5 && (n == max - 2 || n == max - 1)
  {
  }

  /** What the calls of a turn with tools are told: the last one that it has no tools, and in
      budgets of at least five calls the two before it how many calls are left, themselves
      included. */
  lemma CallsAreTold(n: nat, max: int, spliced: seq<Msg>)
    requires n <= max
    ensures Picked(n, max, true, spliced) ==
            if n == max then Choice(false, spliced + [Noticed(WrapUp, "")])
            else if max >= 5 && n == max - 1 then Choice(true, spliced + [Noticed(CallsLeft(2), "")])
            else if max >= 5 && n == max - 2 then Choice(true, spliced + [Noticed(CallsLeft(3), "")])
            else Choice(true, spliced)
  {
    WarnedCalls(n, max);
  }

  /** A notice at the end leaves a transcript well formed. */
  lemma PickedIsWellFormed(n: nat, max: int, bound: bool, spliced: seq<Msg>)
    requires WellFormed(spliced)
    ensures var t := Picked(n, max, bound, spliced).transcript; WellFormed(t) && spliced <= t
  {
    var t := Picked(n, max, bound, spliced).transcript;
    if t != spliced {
      var notice := t[|t| - 1];
      WellFormedSingle(notice);
      WellFormedAppend(spliced, [notice]);
    }
  }

  predicate EndsOnReply(ms: seq<Msg>) {
    ms != [] && ms[|ms| - 1].Assistant?
  }

  /** A chosen transcript ends on the assistant exactly when it did so before and no notice
      is added. */
  lemma PickedEnds(n: nat, max: int, spliced: seq<Msg>)
    ensures EndsOnReply(Picked(n, max, true, spliced).transcript)
            <==> EndsOnReply(spliced) && n < max && !Warns(n, max)
  {
  }

  /** The number of calls made, shared by every copy of a turn's model. */
  class Counter {
    var n: nat

    constructor ()
      ensures n == 0
    {
      n := 0;
    }
  }

  class BudgetModel {
    const bound: bool      // tools are bound
    const calls: Counter
    const max: int
    const steer: Steerer?  // messages the user sent while the turn runs

    constructor (max: int, steer: Steerer?)
      ensures fresh(calls) && calls.n == 0 && !bound
      ensures this.max == max && this.steer == steer
    {
      calls := new Counter();
      bound, this.max, this.steer := false, max, steer;
    }

    constructor Bound(from: BudgetModel)
      ensures bound && calls == from.calls && max == from.max && steer == from.steer
    {
      bound, calls, max, steer := true, from.calls, from.max, from.steer;
    }

    /** A copy with tools, which counts against the same budget; none when the tools cannot
        be bound. */
    method WithTools(bindable: bool) returns (b: Option<BudgetModel>)
      ensures b.Some? <==> bindable
      ensures b.Some? ==> fresh(b.value) && b.value.bound && b.value.calls == calls
      ensures b.Some? ==> b.value.max == max && b.value.steer == steer
    {
      if !bindable {
        return None;
      }
      var copy := new BudgetModel.Bound(this);
      return Some(copy);
    }

    method Pick(own: seq<Msg>) returns (choice: Choice)
      modifies calls, if steer != null then {steer} else {}
      ensures calls.n == old(calls.n) + 1
      ensures steer != null ==> steer.State() == Delivered(old(steer.State()), |own|)
      ensures choice == Picked(calls.n, max, bound, if steer != null then Spliced(own, steer.placed) else own)
    {
      calls.n := calls.n + 1;
      var n, t := calls.n, own;
      if steer != null {
        t := steer.Apply(own);
      }
      if !bound {
        return Choice(false, t);
      }
      if n >= max {
        return Choice(false, t + [Noticed(WrapUp, "")]);
      }
      var left := max - n + 1;
      if left <= BUDGET_WARN_CALLS && max > BUDGET_WARN_CALLS + 1 {
        return Choice(true, t + [Noticed(CallsLeft(left), "")]);
      }
      return Choice(true, t);
    }
  }
}
