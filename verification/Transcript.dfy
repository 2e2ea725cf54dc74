/** Transcripts sent to a provider, and when a provider accepts one. */
module Transcript {
  import opened Util

  datatype Call = Call(index: nat, id: string, name: string, args: string)

  /** Why the program itself adds a message in the user's name. */
  datatype Notice = Steering | WrapUp | CallsLeft(n: nat) | CarryOn

  datatype Msg =
    | System(content: string)
    | User(content: string)
    | Noticed(notice: Notice, content: string)
    | Assistant(content: string, calls: seq<Call>)
    | Tool(callId: string, name: string, content: string)

  function CallIds(calls: seq<Call>): set<string> {
    set k | 0 <= k < |calls| :: calls[k].id
  }

  function ResultIds(results: seq<Msg>): set<string> {
    set k | 0 <= k < |results| && results[k].Tool? :: results[k].callId
  }

  predicate AllTools(ms: seq<Msg>) {
    forall k :: 0 <= k < |ms| ==> ms[k].Tool?
  }

  /** How many tool messages `ms` begins with. */
  function ToolRun(ms: seq<Msg>): (n: nat)
    ensures n <= |ms|
  {
    if ms == [] || !ms[0].Tool? then 0 else 1 + ToolRun(ms[1..])
  }

  /** The messages that belong to the first one: its tool results, when it calls tools. */
  function GroupLength(ms: seq<Msg>): (n: nat)
    requires ms != []
    ensures 0 < n <= |ms|
  {
    if ms[0].Assistant? && ms[0].calls != [] then 1 + ToolRun(ms[1..]) else 1
  }

  /** A message on its own, or an assistant message with exactly the results of its calls. */
  predicate IsGroup(g: seq<Msg>) {
    && g != [] && !g[0].Tool?
    && (if g[0].Assistant? && g[0].calls != [] then
          AllTools(g[1..]) && ResultIds(g[1..]) == CallIds(g[0].calls)
        else |g| == 1)
  }

  /** A provider accepts the transcript: every assistant message that calls tools is
      followed at once by tool messages for exactly its call ids, and no tool message
      stands anywhere else. */
  predicate WellFormed(ms: seq<Msg>)
    decreases |ms|
  {
    ms == [] || (IsGroup(ms[..GroupLength(ms)]) && WellFormed(ms[GroupLength(ms)..]))
  }

  // ----------------------------------------------------------- what follows from it

  lemma {:induction false} ToolRunIs(ts: seq<Msg>, rest: seq<Msg>)
    requires AllTools(ts) && (rest != [] ==> !rest[0].Tool?)
    ensures ToolRun(ts + rest) == |ts|
    decreases |ts|
  {
    if ts == [] {
      assert ts + rest == rest;
    } else {
      assert (ts + rest)[1..] == ts[1..] + rest;
      ToolRunIs(ts[1..], rest);
    }
  }

  lemma {:induction false} ToolRunIsTools(ms: seq<Msg>)
    ensures AllTools(ms[..ToolRun(ms)])
    ensures ToolRun(ms) < |ms| ==> !ms[ToolRun(ms)].Tool?
  {
    if ms != [] && ms[0].Tool? {
      ToolRunIsTools(ms[1..]);
      var n := ToolRun(ms);
      assert ms[..n] == [ms[0]] + ms[1..][..n - 1];
    }
  }

  /** A group at the front of a transcript is found whole. */
  lemma GroupIsFound(g: seq<Msg>, rest: seq<Msg>)
    requires IsGroup(g) && (rest != [] ==> !rest[0].Tool?)
    ensures GroupLength(g + rest) == |g|
    ensures (g + rest)[..|g|] == g && (g + rest)[|g|..] == rest
  {
    if g[0].Assistant? && g[0].calls != [] {
      assert (g + rest)[1..] == g[1..] + rest;
      ToolRunIs(g[1..], rest);
    }
  }

  lemma BeginsWell(ms: seq<Msg>)
    requires WellFormed(ms)
    ensures ms != [] ==> !ms[0].Tool?
  {
    if ms != [] {
      assert ms[..GroupLength(ms)][0] == ms[0];
    }
  }

  lemma WellFormedCons(g: seq<Msg>, rest: seq<Msg>)
    requires IsGroup(g) && WellFormed(rest)
    ensures WellFormed(g + rest)
  {
    BeginsWell(rest);
    GroupIsFound(g, rest);
  }

  lemma {:induction false} WellFormedAppend(a: seq<Msg>, b: seq<Msg>)
    requires WellFormed(a) && WellFormed(b)
    ensures WellFormed(a + b)
    decreases |a|
  {
    if a == [] {
      assert a + b == b;
    } else {
      var g, rest := a[..GroupLength(a)], a[GroupLength(a)..];
      assert a == g + rest && g + (rest + b) == (g + rest) + b;
      WellFormedAppend(rest, b);
      WellFormedCons(g, rest + b);
    }
  }

  lemma WellFormedSingle(m: Msg)
    requires !m.Tool? && (m.Assistant? ==> m.calls == [])
    ensures WellFormed([m])
  {
    assert [m][..1] == [m] && [m][1..] == [];
    assert WellFormed([m][1..]);
  }

  lemma WellFormedGroup(g: seq<Msg>)
    requires IsGroup(g)
    ensures WellFormed(g)
  {
    assert WellFormed([]);
    WellFormedCons(g, []);
    assert g + [] == g;
  }

  lemma GroupsAreWhole(ms: seq<Msg>, k: nat)
    requires ms != [] && k < |ms| && !ms[k].Tool? && k > 0
    ensures GroupLength(ms) <= k
  {
    if ms[0].Assistant? && ms[0].calls != [] {
      var n := ToolRun(ms[1..]);
      ToolRunIsTools(ms[1..]);
      assert forall j :: 0 <= j < n ==> ms[1..][..n][j] == ms[j + 1];
    }
  }

  /** A transcript may be cut in front of any message that is not a tool message. */
  lemma SplitBehindGroup(ms: seq<Msg>, n: nat, k: nat)
    requires n <= k <= |ms|
    ensures ms[n..][k - n..] == ms[k..] && ms[..k] == ms[..n] + ms[n..][..k - n]
  {
  }

  lemma {:induction false} WellFormedSplit(ms: seq<Msg>, k: nat)
    requires WellFormed(ms) && k <= |ms| && (k < |ms| ==> !ms[k].Tool?)
    ensures WellFormed(ms[..k]) && WellFormed(ms[k..])
    decreases |ms|
  {
    if k == 0 {
      assert ms[0..] == ms && ms[..0] == [];
    } else if k == |ms| {
      assert ms[..k] == ms && ms[k..] == [];
    } else {
      GroupsAreWhole(ms, k);
      var n := GroupLength(ms);
      var g, rest := ms[..n], ms[n..];
      SplitBehindGroup(ms, n, k);
      WellFormedSplit(rest, k - n);
      WellFormedCons(g, rest[..k - n]);
    }
  }
}
