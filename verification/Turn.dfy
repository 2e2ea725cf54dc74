/**
 The model calls of one turn: before each one the inbox is spliced in and the budget
 applied; a cut-off reply is resumed; tool calls are answered and the loop goes on.
 */
module Turn {
  import opened Util
  import opened Sequences
  import opened Transcript
  import opened Inbox
  import opened Budget
  import opened Continue
  import History

  /** What a turn meets: the model of its n-th call, with or without tools; the results of
      the tools; whether they end the turn; and the messages that arrive before that call. */
  datatype World = World(
    chat: (nat, bool) -> Model,
    answer: (nat, seq<Call>) -> seq<Msg>,
    direct: (nat, seq<Call>) -> bool,
    arrivals: nat -> seq<Late>)

  predicate CallsNothing(r: Reply) {
    forall k :: 0 <= k < |r.pieces| ==> r.pieces[k].calls == []
  }

  /** A model without tools calls none; every call is answered, by its id. */
  ghost predicate Sound(w: World) {
    && (forall n, k, t :: CallsNothing(w.chat(n, false).reply(k, t)))
    && (forall n, calls :: AllTools(w.answer(n, calls)) && ResultIds(w.answer(n, calls)) == CallIds(calls))
  }

  /** A turn between its model calls: its transcript, its inbox, and the number of the next
      call. */
  datatype State = State(own: seq<Msg>, box: Box, n: nat)

  function PushedAll(b: Box, late: seq<Late>): Box
    decreases |late|
  {
    if late == [] then b else PushedAll(Pushed(b, late[0]), late[1..])
  }

  /** The inbox as the next call finds it. */
  function BoxAt(w: World, s: State): Box {
    Delivered(PushedAll(s.box, w.arrivals(s.n)), |s.own|)
  }

  /** What the next call is shown. */
  function ShownAt(w: World, s: State): seq<Msg> {
    Spliced(s.own, BoxAt(w, s).placed)
  }

  function CallAt(w: World, max: int, s: State): Buffered {
    var choice := Picked(s.n, max, true, ShownAt(w, s));
    Generated(w.chat(s.n, choice.tools), choice.transcript)
  }

  /** Whether the loop goes on after this reply. */
  predicate GoesOn(w: World, reply: Option<Whole>, n: nat) {
    reply.Some? && reply.value.calls != [] && !w.direct(n, reply.value.calls)
  }

  /** The transcript has grown by the reply and the results of its calls. */
  function Grown(w: World, own: seq<Msg>, reply: Whole, n: nat): seq<Msg> {
    own + ([Assistant(reply.content, reply.calls)] + w.answer(n, reply.calls))
  }

  /** The reply to the call made in a state, None when the call fails. */
  type Replies = State -> Option<Whole>

  function Replying(w: World, max: int): Replies {
    s => CallAt(w, max, s).msg
  }

  function Next(w: World, replies: Replies, s: State): Option<State> {
    var reply := replies(s);
    if GoesOn(w, reply, s.n) then Some(State(Grown(w, s.own, reply.value, s.n), BoxAt(w, s), s.n + 1)) else None
  }

  /** The state before the call number `i + 1`, when the turn makes that many calls. */
  function StateAt(w: World, replies: Replies, own: seq<Msg>, i: nat): Option<State> {
    if i == 0 then Some(State(own, NEW_BOX, 1)) else
    var s := StateAt(w, replies, own, i - 1);
    if s.None? then None else Next(w, replies, s.value)
  }

  // --------------------------------------------------------------------- the budget

  lemma {:induction false} JoinedCallsNothing(w: Whole, r: Reply)
    requires CallsNothing(r) && w.calls == []
    ensures JoinedAll(w, r.pieces).calls == []
    decreases |r.pieces|
  {
    if r.pieces != [] {
      assert CallsNothing(Reply(r.pieces[1..], r.broken));
      JoinedCallsNothing(Joined(w, r.pieces[0]), Reply(r.pieces[1..], r.broken));
    }
  }

  lemma {:induction false} ResumedCallsNothing(m: Model, own: seq<Msg>, msg: Whole, i: nat)
    requires forall k, t :: CallsNothing(m.reply(k, t))
    requires msg.calls == []
    ensures var out := BufferedFrom(m, own, msg, i).msg; out.Some? ==> out.value.calls == []
    decreases MAX_CONTINUATIONS - i
  {
    if i < MAX_CONTINUATIONS && CutOff(msg) && m.wanted(i) {
      var r := m.reply(i + 1, ResumeTranscript(own, msg.content));
      if !r.broken {
        JoinedCallsNothing(NOTHING_YET, r);
        var next := JoinedAll(NOTHING_YET, r.pieces);
        ResumedCallsNothing(m, own, next.(content := msg.content + next.content), i + 1);
      }
    }
  }

  /** A model that calls no tools replies without calls, however often it is resumed. */
  lemma GeneratedCallsNothing(m: Model, own: seq<Msg>)
    requires forall k, t :: CallsNothing(m.reply(k, t))
    ensures var out := Generated(m, own).msg; out.Some? ==> out.value.calls == []
  {
    var r := m.reply(0, own);
    if !r.broken {
      JoinedCallsNothing(NOTHING_YET, r);
      ResumedCallsNothing(m, own, JoinedAll(NOTHING_YET, r.pieces), 0);
    }
  }

  lemma LastCallEndsTurn(w: World, max: int, s: State)
    requires Sound(w) && s.n >= max
    ensures Next(w, Replying(w, max), s) == None
  {
    var m := w.chat(s.n, false);
    forall k, t ensures CallsNothing(m.reply(k, t)) {
      assert CallsNothing(w.chat(s.n, false).reply(k, t));
    }
    GeneratedCallsNothing(m, Picked(s.n, max, true, ShownAt(w, s)).transcript);
  }

  lemma {:induction false} CallsAreNumbered(w: World, replies: Replies, own: seq<Msg>, i: nat)
    requires StateAt(w, replies, own, i).Some?
    ensures StateAt(w, replies, own, i).value.n == i + 1
  {
    if i > 0 {
      CallsAreNumbered(w, replies, own, i - 1);
    }
  }

  /** After as many calls as the budget permits there is no further one. */
  lemma NoCallBeyond(w: World, max: int, own: seq<Msg>, i: nat)
    requires Sound(w) && i > 0 && i >= max
    ensures StateAt(w, Replying(w, max), own, i) == None
  {
    var s := StateAt(w, Replying(w, max), own, i - 1);
    if s.Some? {
      CallsAreNumbered(w, Replying(w, max), own, i - 1);
      LastCallEndsTurn(w, max, s.value);
    }
  }

  /** A turn ends within its budget, before the graph's own step limit would cut it off
      (a model call and its tool round are two steps). */
  lemma TurnEndsWithinBudget(w: World, max: int, own: seq<Msg>, i: nat)
    requires Sound(w) && max > 0
    requires StateAt(w, Replying(w, max), own, i).Some?
    ensures i < max && 2 * (i + 1) < GraphStepsFor(max)
  {
    if i >= max {
      NoCallBeyond(w, max, own, i);
    }
  }

  // ------------------------------------------------------------------- every transcript

  /** What holds of a turn between its model calls. */
  ghost predicate Ready(own: seq<Msg>, b: Box) {
    && WellFormed(own)
    && OnBoundaries(own, b.placed)
    && !b.closed && b.pending == []
  }

  lemma {:induction false} PushedAllIs(b: Box, late: seq<Late>)
    requires !b.closed
    ensures PushedAll(b, late) == b.(pending := b.pending + late, taken := b.taken + |late|)
    decreases |late|
  {
    if late == [] {
      assert b.pending + late == b.pending;
    } else {
      PushedAllIs(Pushed(b, late[0]), late[1..]);
      assert (b.pending + [late[0]]) + late[1..] == b.pending + late;
    }
  }

  /** What arrived before the call is placed at the end of its transcript. */
  lemma BoxAtIs(w: World, s: State)
    requires !s.box.closed && s.box.pending == []
    ensures var b := BoxAt(w, s);
            !b.closed && b.pending == [] && b.placed == s.box.placed + PlacedAt(w.arrivals(s.n), |s.own|)
  {
    PushedAllIs(s.box, w.arrivals(s.n));
    assert [] + w.arrivals(s.n) == w.arrivals(s.n);
  }

  lemma BoundariesHold(w: World, s: State)
    requires Ready(s.own, s.box)
    ensures Ready(s.own, BoxAt(w, s))
  {
    BoxAtIs(w, s);
  }

  /** The calls of a reply and their results are a group, which ends with a tool message. */
  lemma RoundIsGroup(content: string, calls: seq<Call>, results: seq<Msg>)
    requires calls != [] && AllTools(results) && ResultIds(results) == CallIds(calls)
    ensures var g := [Assistant(content, calls)] + results;
            IsGroup(g) && g[|g| - 1].Tool?
  {
    Cons(Assistant(content, calls), results);
    assert calls[0].id in CallIds(calls);
    assert results != [];
  }

  /** The transcript grows by a whole group. */
  lemma GrownIsReady(w: World, own: seq<Msg>, b: Box, reply: Whole, n: nat)
    requires Sound(w) && Ready(own, b) && reply.calls != []
    ensures Ready(Grown(w, own, reply, n), b)
  {
    var results := w.answer(n, reply.calls);
    var g := [Assistant(reply.content, reply.calls)] + results;
    assert AllTools(results) && ResultIds(results) == CallIds(reply.calls);
    RoundIsGroup(reply.content, reply.calls, results);
    WellFormedGroup(g);
    WellFormedAppend(own, g);
  }

  lemma {:induction false} StaysReady(w: World, replies: Replies, own: seq<Msg>, i: nat)
    requires Sound(w) && Ready(own, NEW_BOX)
    requires StateAt(w, replies, own, i).Some?
    ensures var s := StateAt(w, replies, own, i).value; Ready(s.own, s.box)
  {
    if i > 0 {
      StaysReady(w, replies, own, i - 1);
      var s := StateAt(w, replies, own, i - 1).value;
      BoundariesHold(w, s);
      GrownIsReady(w, s.own, BoxAt(w, s), replies(s).value, s.n);
    }
  }

  /** Everything asked in one call is acceptable to a provider. */
  lemma CallIsWellFormed(w: World, max: int, s: State)
    requires Ready(s.own, s.box)
    ensures forall k :: 0 <= k < |CallAt(w, max, s).asked| ==> WellFormed(CallAt(w, max, s).asked[k])
  {
    BoundariesHold(w, s);
    var placed := BoxAt(w, s).placed;
    SplicedIsWellFormed(s.own, placed);
    PickedIsWellFormed(s.n, max, true, ShownAt(w, s));
    var choice := Picked(s.n, max, true, ShownAt(w, s));
    ResumedCallsAreWellFormed(w.chat(s.n, choice.tools), choice.transcript);
  }

  /** Every transcript of every call of a turn, resumed calls included, is well formed. */
  lemma EveryCallIsWellFormed(w: World, max: int, own: seq<Msg>, i: nat, k: nat)
    requires Sound(w) && Ready(own, NEW_BOX)
    requires StateAt(w, Replying(w, max), own, i).Some?
    requires k < |CallAt(w, max, StateAt(w, Replying(w, max), own, i).value).asked|
    ensures WellFormed(CallAt(w, max, StateAt(w, Replying(w, max), own, i).value).asked[k])
  {
    StaysReady(w, Replying(w, max), own, i);
    CallIsWellFormed(w, max, StateAt(w, Replying(w, max), own, i).value);
  }

  // ------------------------------------------------------------------ prefix stability

  /** What arrived before the calls up to number `i + 1`. */
  function Arrived(w: World, i: nat): seq<Late> {
    if i == 0 then w.arrivals(1) else Arrived(w, i - 1) + w.arrivals(i + 1)
  }

  lemma NextKeepsBox(w: World, replies: Replies, s: State)
    requires Next(w, replies, s).Some?
    ensures Next(w, replies, s).value.box == BoxAt(w, s) && Next(w, replies, s).value.n == s.n + 1
  {
  }

  lemma ArrivalsArePlaced(w: World, s: State)
    requires Ready(s.own, s.box)
    ensures LateIn(BoxAt(w, s).placed) == LateIn(s.box.placed) + w.arrivals(s.n)
  {
    BoxAtIs(w, s);
    assert LateIn(s.box.placed + PlacedAt(w.arrivals(s.n), |s.own|)) == LateIn(s.box.placed) + w.arrivals(s.n);
  }

  /** The messages placed by the call are all that arrived so far, in the order of arrival. */
  lemma {:induction false} AllArePlaced(w: World, replies: Replies, own: seq<Msg>, i: nat)
    requires Sound(w) && Ready(own, NEW_BOX)
    requires StateAt(w, replies, own, i).Some?
    ensures LateIn(BoxAt(w, StateAt(w, replies, own, i).value).placed) == Arrived(w, i)
  {
    var s := StateAt(w, replies, own, i).value;
    StaysReady(w, replies, own, i);
    CallsAreNumbered(w, replies, own, i);
    ArrivalsArePlaced(w, s);
    if i > 0 {
      AllArePlaced(w, replies, own, i - 1);
      NextKeepsBox(w, replies, StateAt(w, replies, own, i - 1).value);
    } else {
      assert LateIn([]) + w.arrivals(1) == w.arrivals(1);
    }
  }

  /** Every call shows its own transcript and, exactly once and in the order of their
      arrival, all the messages that came before it. */
  lemma EveryMessageIsShownOnce(w: World, replies: Replies, own: seq<Msg>, i: nat)
    requires Sound(w) && Ready(own, NEW_BOX)
    requires StateAt(w, replies, own, i).Some?
    ensures var s := StateAt(w, replies, own, i).value;
            var items := Mixed(s.own, BoxAt(w, s).placed, 0);
            && ShownAt(w, s) == Plains(items)
            && OwnOf(items) == s.own
            && LateOf(items) == Arrived(w, i)
  {
    var s := StateAt(w, replies, own, i).value;
    StaysReady(w, replies, own, i);
    BoundariesHold(w, s);
    AllArePlaced(w, replies, own, i);
    var placed := BoxAt(w, s).placed;
    DeletingLateOnes(s.own, placed, 0);
    EveryLateOne(s.own, placed, 0);
    assert s.own[0..] == s.own;
  }

  /** A later transcript extends an earlier one: it grows at the end, and new late messages
      lie behind what there was. */
  ghost predicate Extends(own: seq<Msg>, placed: seq<Placed>, own': seq<Msg>, placed': seq<Placed>) {
    own <= own' && placed <= placed' && Behind(placed'[|placed|..], |own|)
  }

  lemma ExtendsFurther(a: seq<Msg>, p: seq<Placed>, b: seq<Msg>, q: seq<Placed>, c: seq<Msg>, r: seq<Placed>)
    requires Extends(a, p, b, q) && Extends(b, q, c, r)
    ensures Extends(a, p, c, r)
  {
    forall k | 0 <= k < |r[|p|..]| ensures r[|p|..][k].at >= |a| {
      var j := |p| + k;
      if j < |q| {
        assert r[j] == q[j] == q[|p|..][k];
      } else {
        assert r[j] == r[|q|..][j - |q|];
      }
    }
  }

  lemma StepExtends(w: World, replies: Replies, s: State)
    requires Ready(s.own, s.box) && Next(w, replies, s).Some?
    requires var t := Next(w, replies, s).value; Ready(t.own, t.box)
    ensures var t := Next(w, replies, s).value;
            Extends(s.own, BoxAt(w, s).placed, t.own, BoxAt(w, t).placed)
  {
    var t := Next(w, replies, s).value;
    BoxAtIs(w, t);
    var placed := BoxAt(w, s).placed;
    assert BoxAt(w, t).placed[|placed|..] == PlacedAt(w.arrivals(t.n), |t.own|);
  }

  lemma {:induction false} EarlierCallsWere(w: World, replies: Replies, own: seq<Msg>, i: nat, j: nat)
    requires i <= j && StateAt(w, replies, own, j).Some?
    ensures StateAt(w, replies, own, i).Some?
    decreases j
  {
    if i < j {
      EarlierCallsWere(w, replies, own, i, j - 1);
    }
  }

  lemma NextCallExtends(w: World, replies: Replies, own: seq<Msg>, j: nat)
    requires Sound(w) && Ready(own, NEW_BOX)
    requires StateAt(w, replies, own, j).Some? && StateAt(w, replies, own, j + 1).Some?
    ensures var s, t := StateAt(w, replies, own, j).value, StateAt(w, replies, own, j + 1).value;
            Extends(s.own, BoxAt(w, s).placed, t.own, BoxAt(w, t).placed)
  {
    StaysReady(w, replies, own, j);
    StaysReady(w, replies, own, j + 1);
    StepExtends(w, replies, StateAt(w, replies, own, j).value);
  }

  lemma {:induction false} CallsExtend(w: World, replies: Replies, own: seq<Msg>, i: nat, j: nat)
    requires Sound(w) && Ready(own, NEW_BOX)
    requires i <= j && StateAt(w, replies, own, i).Some? && StateAt(w, replies, own, j).Some?
    ensures var s, t := StateAt(w, replies, own, i).value, StateAt(w, replies, own, j).value;
            Extends(s.own, BoxAt(w, s).placed, t.own, BoxAt(w, t).placed)
    decreases j
  {
    var s, t := StateAt(w, replies, own, i).value, StateAt(w, replies, own, j).value;
    if i < j {
      EarlierCallsWere(w, replies, own, j - 1, j);
      CallsExtend(w, replies, own, i, j - 1);
      NextCallExtends(w, replies, own, j - 1);
      var r := StateAt(w, replies, own, j - 1).value;
      ExtendsFurther(s.own, BoxAt(w, s).placed, r.own, BoxAt(w, r).placed, t.own, BoxAt(w, t).placed);
    }
  }

  lemma ExtendedSplice(own: seq<Msg>, p: seq<Placed>, own': seq<Msg>, q: seq<Placed>)
    requires Extends(own, p, own', q) && Within(p, |own|)
    ensures Spliced(own, p) <= Spliced(own', q)
  {
    assert own' == own + own'[|own|..] && q == p + q[|p|..];
    SplicedIsStable(own, own'[|own|..], p, q[|p|..]);
  }

  /** Steering is prefix stable: what the model is shown in one call is a prefix of what it
      is shown in every later one. */
  lemma ShownOnlyGrows(w: World, replies: Replies, own: seq<Msg>, i: nat, j: nat)
    requires Sound(w) && Ready(own, NEW_BOX)
    requires i <= j && StateAt(w, replies, own, i).Some? && StateAt(w, replies, own, j).Some?
    ensures ShownAt(w, StateAt(w, replies, own, i).value) <= ShownAt(w, StateAt(w, replies, own, j).value)
  {
    CallsExtend(w, replies, own, i, j);
    StaysReady(w, replies, own, i);
    var s, t := StateAt(w, replies, own, i).value, StateAt(w, replies, own, j).value;
    BoundariesHold(w, s);
    ExtendedSplice(s.own, BoxAt(w, s).placed, t.own, BoxAt(w, t).placed);
  }

  // ------------------------------------------------------------------- the first call

  /** A turn starts with the system prompt and the trimmed history: whatever is stored, and
      whichever row of it is the last, the first call can be made. */
  lemma HistoryIsReady(msgs: seq<History.StoredMsg>, budget: int, start: nat, prompt: string)
    requires var ms := History.HistoryMessages(msgs);
             if History.NeedsTrimming(ms, budget) then History.IsBestStart(ms, budget, start) else start == 0
    ensures start <= |History.HistoryMessages(msgs)|
    ensures Ready([System(prompt)] + History.HistoryMessages(msgs)[start..], NEW_BOX)
  {
    var ms := History.HistoryMessages(msgs);
    History.HistoryIsWellFormed(msgs);
    BeginsWell(ms);
    WellFormedSplit(ms, start);
    WellFormedSingle(System(prompt));
    WellFormedAppend([System(prompt)], ms[start..]);
  }

  // ------------------------------------------------------- calls that end on the assistant

  predicate AtEnd(placed: seq<Placed>, n: nat) {
    exists k :: 0 <= k < |placed| && placed[k].at == n
  }

  lemma OneOwn(own: seq<Msg>, placed: seq<Placed>, i: nat)
    requires i < |own| && (placed != [] ==> placed[0].at > i)
    ensures Plains(Mixed(own, placed, i)) == [own[i]] + Plains(Mixed(own, placed, i + 1))
  {
    assert Mixed(own, placed, i)[1..] == Mixed(own, placed, i + 1);
  }

  /** Behind the transcript there are only late messages. */
  lemma {:induction false} OnlyLate(own: seq<Msg>, placed: seq<Placed>)
    requires Within(placed, |own|)
    ensures var out := Plains(Mixed(own, placed, |own|));
            if placed == [] then out == [] else out != [] && out[|out| - 1].Noticed?
    decreases |placed|
  {
    if placed != [] {
      OneLate(own, placed, |own|);
      OnlyLate(own, placed[1..]);
    }
  }

  lemma AtEndBehind(placed: seq<Placed>, n: nat)
    requires placed != []
    ensures AtEnd(placed, n) <==> placed[0].at == n || AtEnd(placed[1..], n)
  {
    if k :| 0 < k < |placed| && placed[k].at == n {
      assert placed[1..][k - 1] == placed[k];
    }
    if k :| 0 <= k < |placed[1..]| && placed[1..][k].at == n {
      assert placed[k + 1].at == n;
    }
  }

  /** A spliced transcript ends on a late message when one is placed at its end. */
  lemma {:induction false} LateIsLast(own: seq<Msg>, placed: seq<Placed>, i: nat)
    requires i <= |own| && Within(placed, |own|) && AtEnd(placed, |own|)
    ensures var out := Plains(Mixed(own, placed, i)); out != [] && out[|out| - 1].Noticed?
    decreases |own| - i + |placed|
  {
    if i == |own| {
      OnlyLate(own, placed);
    } else if placed[0].at <= i {
      OneLate(own, placed, i);
      AtEndBehind(placed, |own|);
      LateIsLast(own, placed[1..], i);
    } else {
      OneOwn(own, placed, i);
      LateIsLast(own, placed, i + 1);
    }
  }

  lemma NoneBehind(placed: seq<Placed>, n: nat)
    requires Within(placed, n) && !AtEnd(placed, n) && (placed != [] ==> placed[0].at >= n)
    ensures placed == []
  {
  }

  predicate EndsOn(out: seq<Msg>, m: Msg) {
    out != [] && out[|out| - 1] == m
  }

  lemma EndsBehind(first: Msg, rest: seq<Msg>, m: Msg)
    requires EndsOn(rest, m)
    ensures EndsOn([first] + rest, m)
  {
  }

  /** It ends on its own last message otherwise. */
  lemma {:induction false} OwnIsLast(own: seq<Msg>, placed: seq<Placed>, i: nat)
    requires i < |own| && Within(placed, |own|) && !AtEnd(placed, |own|)
    ensures EndsOn(Plains(Mixed(own, placed, i)), own[|own| - 1])
    decreases |own| - i + |placed|
  {
    if placed != [] && placed[0].at <= i {
      AtEndBehind(placed, |own|);
      OneLate(own, placed, i);
      OwnIsLast(own, placed[1..], i);
      EndsBehind(Shown(placed[0].late), Plains(Mixed(own, placed[1..], i)), own[|own| - 1]);
    } else {
      OneOwn(own, placed, i);
      if i + 1 < |own| {
        OwnIsLast(own, placed, i + 1);
        EndsBehind(own[i], Plains(Mixed(own, placed, i + 1)), own[|own| - 1]);
      } else {
        NoneBehind(placed, |own|);
        OnlyLate(own, placed);
      }
    }
  }

  lemma LastOfSpliced(own: seq<Msg>, placed: seq<Placed>)
    requires Within(placed, |own|)
    ensures EndsOnReply(Spliced(own, placed)) <==> EndsOnReply(own) && !AtEnd(placed, |own|)
  {
    if own == [] {
      OnlyLate(own, placed);
    } else if AtEnd(placed, |own|) {
      LateIsLast(own, placed, 0);
    } else {
      OwnIsLast(own, placed, 0);
    }
  }

  /** After a round of tools a transcript ends with a tool message. */
  lemma GrownEndsOnTool(w: World, own: seq<Msg>, reply: Whole, n: nat)
    requires Sound(w) && reply.calls != []
    ensures var grown := Grown(w, own, reply, n); grown != [] && grown[|grown| - 1].Tool?
  {
    var results := w.answer(n, reply.calls);
    assert AllTools(results) && ResultIds(results) == CallIds(reply.calls);
    RoundIsGroup(reply.content, reply.calls, results);
  }

  lemma ShownEnds(w: World, replies: Replies, own: seq<Msg>, i: nat)
    requires Sound(w) && Ready(own, NEW_BOX) && StateAt(w, replies, own, i).Some?
    ensures EndsOnReply(ShownAt(w, StateAt(w, replies, own, i).value))
            <==> i == 0 && EndsOnReply(own) && w.arrivals(1) == []
  {
    var s := StateAt(w, replies, own, i).value;
    StaysReady(w, replies, own, i);
    BoxAtIs(w, s);
    BoundariesHold(w, s);
    LastOfSpliced(s.own, BoxAt(w, s).placed);
    if i == 0 {
      assert w.arrivals(1) != [] ==> BoxAt(w, s).placed[0].at == |own|;
    } else {
      var p := StateAt(w, replies, own, i - 1).value;
      GrownEndsOnTool(w, p.own, replies(p).value, p.n);
    }
  }

  /** Exactly which calls end on the assistant: the first of a turn whose history ends so,
      when nothing arrived before it and its budget leaves more than one call. */
  lemma CallEndsOnReply(w: World, max: int, own: seq<Msg>, i: nat, k: nat)
    requires Sound(w) && Ready(own, NEW_BOX)
    requires StateAt(w, Replying(w, max), own, i).Some?
    requires k < |CallAt(w, max, StateAt(w, Replying(w, max), own, i).value).asked|
    ensures EndsOnReply(CallAt(w, max, StateAt(w, Replying(w, max), own, i).value).asked[k])
            <==> k == 0 && i == 0 && EndsOnReply(own) && w.arrivals(1) == [] && max > 1
  {
    var s := StateAt(w, Replying(w, max), own, i).value;
    ShownEnds(w, Replying(w, max), own, i);
    CallsAreNumbered(w, Replying(w, max), own, i);
    PickedEnds(s.n, max, ShownAt(w, s));
    WarnedCalls(s.n, max);
    var choice := Picked(s.n, max, true, ShownAt(w, s));
    FirstIsAskedFirst(w.chat(s.n, choice.tools), choice.transcript);
  }

  /** What a late message and the reply of the turn it missed are stored as. */
  function LateRows(late: string, reply: string): seq<History.StoredMsg> {
    [History.StoredMsg(History.UserRole, [History.TextPart(late)]),
     History.StoredMsg(History.AssistantRole, [History.TextPart(reply)])]
  }

  /** Loaded, they end on the reply. */
  lemma LateRowsEnd(before: seq<History.StoredMsg>, late: string, reply: string)
    requires reply != ""
    ensures var ms := History.HistoryMessages(before + LateRows(late, reply));
            ms != [] && ms[|ms| - 1] == Assistant(reply, [])
  {
    var rows := LateRows(late, reply);
    History.HistoryOfBoth(before, rows);
    LastRow(rows, reply);
  }

  lemma LastRow(rows: seq<History.StoredMsg>, reply: string)
    requires |rows| == 2 && reply != ""
    requires rows[1] == History.StoredMsg(History.AssistantRole, [History.TextPart(reply)])
    ensures var ms := History.HistoryMessages(rows); ms != [] && ms[|ms| - 1] == Assistant(reply, [])
  {
    History.ReplyRow(reply);
    History.HistoryOfBoth(rows[..1], rows[1..]);
    assert rows == rows[..1] + rows[1..] && rows[1..] == [rows[1]] && rows[1..][1..] == [];
    assert History.HistoryMessages(rows[1..]) == [Assistant(reply, [])] + History.HistoryMessages([]);
  }

  /** The first call of a turn whose history ends so. */
  lemma FirstCallEndsOnReply(w: World, max: int, own: seq<Msg>)
    requires Sound(w) && Ready(own, NEW_BOX) && EndsOnReply(own) && w.arrivals(1) == [] && max > 1
    ensures CallAt(w, max, State(own, NEW_BOX, 1)).asked != []
            && EndsOnReply(CallAt(w, max, State(own, NEW_BOX, 1)).asked[0])
  {
    var choice := Picked(1, max, true, ShownAt(w, State(own, NEW_BOX, 1)));
    assert StateAt(w, Replying(w, max), own, 0) == Some(State(own, NEW_BOX, 1));
    FirstIsAskedFirst(w.chat(1, choice.tools), choice.transcript);
    CallEndsOnReply(w, max, own, 0, 0);
  }

  /** A late message is stored before the reply it came too late for, so the turn that
      follows it up loads a history that ends on this reply: its first call asks the model
      with a transcript that ends on the assistant. */
  lemma FollowUpEndsOnReply(w: World, max: int, prompt: string, before: seq<History.StoredMsg>,
                             late: string, reply: string)
    requires Sound(w) && w.arrivals(1) == [] && max > 1 && reply != ""
    ensures var own := [System(prompt)] + History.HistoryMessages(before + LateRows(late, reply));
            && Ready(own, NEW_BOX) && CallAt(w, max, State(own, NEW_BOX, 1)).asked != []
            && EndsOnReply(CallAt(w, max, State(own, NEW_BOX, 1)).asked[0])
  {
    var ms := History.HistoryMessages(before + LateRows(late, reply));
    LateRowsEnd(before, late, reply);
    HistoryIsReady(before + LateRows(late, reply), 0, 0, prompt);
    assert ms[0..] == ms;
    FirstCallEndsOnReply(w, max, [System(prompt)] + ms);
  }
}
