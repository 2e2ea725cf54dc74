/**
 Resuming a reply that the output limit cut off (internal/agent/continue.go), once for a
 buffered call and once for a streamed one.
 */
module Continue {
  import opened Util
  import opened Sequences
  import opened Text
  import opened Transcript

  const MAX_CONTINUATIONS: nat := 4

  /** A chunk of a streamed reply. */
  datatype Piece = Piece(content: string, calls: seq<Call>, finish: string)

  /** The reply to one call; a broken one ends in an error after its chunks. */
  datatype Reply = Reply(pieces: seq<Piece>, broken: bool)

  /** The model, as seen by one turn: the reply to its n-th call with a transcript; and
      whether the turn is still wanted when that reply has arrived. */
  datatype Model = Model(reply: (nat, seq<Msg>) -> Reply, wanted: nat -> bool)

  /** A buffered reply: what the chunks of the streamed one come to. */
  datatype Whole = Whole(content: string, calls: seq<Call>, finish: string)

  function Joined(w: Whole, p: Piece): Whole {
    Whole(w.content + p.content, w.calls + p.calls, if p.finish != "" then p.finish else w.finish)
  }

  function JoinedAll(w: Whole, pieces: seq<Piece>): Whole
    decreases |pieces|
  {
    if pieces == [] then w else JoinedAll(Joined(w, pieces[0]), pieces[1..])
  }

  const NOTHING_YET := Whole("", [], "")

  predicate HitOutputLimit(finish: string, sawToolCall: bool) {
    !sawToolCall && (ToLower(finish) == "length" || ToLower(finish) == "max_tokens")
  }

  predicate CutOff(w: Whole) {
    HitOutputLimit(w.finish, w.calls != [])
  }

  function ResumeTranscript(own: seq<Msg>, partial: string): seq<Msg> {
    own + [Assistant(partial, []), Noticed(CarryOn, "")]
  }

  // ------------------------------------------------------------------ buffered calls

  datatype Buffered = Buffered(msg: Option<Whole>, asked: seq<seq<Msg>>)

  /** From the point where `msg` holds the joined reply to `i + 1` calls. */
  function BufferedFrom(model: Model, own: seq<Msg>, msg: Whole, i: nat): Buffered
    decreases MAX_CONTINUATIONS - i
  {
    if i < MAX_CONTINUATIONS && CutOff(msg) && model.wanted(i) then
      var t := ResumeTranscript(own, msg.content);
      var r := model.reply(i + 1, t);
      if r.broken then Buffered(None, [t]) else
      var next := JoinedAll(NOTHING_YET, r.pieces);
      Asking([t], BufferedFrom(model, own, next.(content := msg.content + next.content), i + 1))
    else Buffered(Some(msg), [])
  }

  function Generated(model: Model, own: seq<Msg>): Buffered {
    var r := model.reply(0, own);
    if r.broken then Buffered(None, [own]) else
    Asking([own], BufferedFrom(model, own, JoinedAll(NOTHING_YET, r.pieces), 0))
  }

  function Asking(asked: seq<seq<Msg>>, rest: Buffered): Buffered {
    Buffered(rest.msg, asked + rest.asked)
  }

  /** A buffered call to the model. */
  method Generate(model: Model, n: nat, own: seq<Msg>) returns (msg: Option<Whole>)
    ensures var r := model.reply(n, own); msg == if r.broken then None else Some(JoinedAll(NOTHING_YET, r.pieces))
  {
    var r := model.reply(n, own);
    if r.broken {
      return None;
    }
    msg := Some(JoinedAll(NOTHING_YET, r.pieces));
  }

  method GenerateResuming(model: Model, own: seq<Msg>) returns (out: Option<Whole>, asked: seq<seq<Msg>>)
    ensures Buffered(out, asked) == Generated(model, own)
  {
    asked := [own];
    out := Generate(model, 0, own);
    if out.None? {
      return;
    }
    var msg := out.value;
    var text := msg.content;
    var i := 0;
    while i < MAX_CONTINUATIONS && HitOutputLimit(msg.finish, msg.calls != []) && model.wanted(i)
      invariant 0 <= i <= MAX_CONTINUATIONS && msg.content == text
      invariant Generated(model, own) == Asking(asked, BufferedFrom(model, own, msg, i))
      decreases MAX_CONTINUATIONS - i
    {
      var t := ResumeTranscript(own, text);
      var next := Generate(model, i + 1, t);
      if next.None? {
        return None, asked + [t];
      }
      text := text + next.value.content;
      msg := next.value.(content := text);
      i := i + 1;
      asked := asked + [t];
    }
    out := Some(msg);
    assert asked + [] == asked;
  }

  // ------------------------------------------------------------------ streamed calls

  datatype Streamed = Streamed(sent: seq<Piece>, failed: bool, asked: seq<seq<Msg>>)

  /** Whether a round is followed by another. */
  predicate GoesOn(model: Model, r: Reply, round: nat) {
    !r.broken && round < MAX_CONTINUATIONS && CutOff(JoinedAll(NOTHING_YET, r.pieces)) && model.wanted(round)
  }

  /** From the round on whose transcript is `t`, `text` being what has been forwarded. */
  function StreamedFrom(model: Model, own: seq<Msg>, t: seq<Msg>, text: string, round: nat): Streamed
    requires round <= MAX_CONTINUATIONS
    decreases MAX_CONTINUATIONS - round
  {
    var r := model.reply(round, t);
    if !GoesOn(model, r, round) then Streamed(r.pieces, r.broken, [t])
    else
      var text' := text + JoinedAll(NOTHING_YET, r.pieces).content;
      Ahead(r.pieces, [t], StreamedFrom(model, own, ResumeTranscript(own, text'), text', round + 1))
  }

  function Ahead(sent: seq<Piece>, asked: seq<seq<Msg>>, rest: Streamed): Streamed {
    Streamed(sent + rest.sent, rest.failed, asked + rest.asked)
  }

  /** How many chunks go through before the consumer, who takes the n-th chunk of the whole
      stream or has gone away by then, refuses one. */
  function Taken(takes: nat -> bool, n: nat, pieces: seq<Piece>): (k: nat)
    ensures k <= |pieces|
    decreases |pieces|
  {
    if pieces == [] || !takes(n) then 0 else 1 + Taken(takes, n + 1, pieces[1..])
  }

  /** The same for a consumer who may close the stream: no chunk follows a refused one, and
      the model is not called again. */
  function StreamedTo(model: Model, takes: nat -> bool, own: seq<Msg>, t: seq<Msg>, text: string, n: nat,
                      round: nat): Streamed
    requires round <= MAX_CONTINUATIONS
    decreases MAX_CONTINUATIONS - round
  {
    var r := model.reply(round, t);
    var k := Taken(takes, n, r.pieces);
    if k < |r.pieces| then Streamed(r.pieces[..k], false, [t])
    else if !GoesOn(model, r, round) then Streamed(r.pieces, r.broken, [t])
    else
      var text' := text + JoinedAll(NOTHING_YET, r.pieces).content;
      var t' := ResumeTranscript(own, text');
      Ahead(r.pieces, [t], StreamedTo(model, takes, own, t', text', n + |r.pieces|, round + 1))
  }

  /** A round that is followed by another one, unless the consumer goes away. */
  lemma GoesOnTo(model: Model, takes: nat -> bool, own: seq<Msg>, t: seq<Msg>, text: string, n: nat, round: nat)
    requires round < MAX_CONTINUATIONS && GoesOn(model, model.reply(round, t), round)
    ensures var pieces := model.reply(round, t).pieces;
            var text' := text + JoinedAll(NOTHING_YET, pieces).content;
            var k := Taken(takes, n, pieces);
            StreamedTo(model, takes, own, t, text, n, round) ==
            if k < |pieces| then Streamed(pieces[..k], false, [t])
            else Ahead(pieces, [t],
                       StreamedTo(model, takes, own, ResumeTranscript(own, text'), text', n + |pieces|, round + 1))
  {
  }

  lemma GoesOnFrom(model: Model, own: seq<Msg>, t: seq<Msg>, text: string, round: nat)
    requires round < MAX_CONTINUATIONS && GoesOn(model, model.reply(round, t), round)
    ensures var pieces := model.reply(round, t).pieces;
            var text' := text + JoinedAll(NOTHING_YET, pieces).content;
            StreamedFrom(model, own, t, text, round) ==
            Ahead(pieces, [t], StreamedFrom(model, own, ResumeTranscript(own, text'), text', round + 1))
  {
  }

  /** The chunks so far have all been taken: what is left decides how many will be. */
  predicate TakenSoFar(takes: nat -> bool, n0: nat, pieces: seq<Piece>, n: nat, i: nat)
    requires i <= |pieces|
  {
    Taken(takes, n0, pieces) == i + Taken(takes, n, pieces[i..])
  }

  lemma TakenNext(takes: nat -> bool, n0: nat, pieces: seq<Piece>, n: nat, i: nat)
    requires i < |pieces| && TakenSoFar(takes, n0, pieces, n, i)
    ensures if takes(n) then TakenSoFar(takes, n0, pieces, n + 1, i + 1) else Taken(takes, n0, pieces) == i
  {
    assert pieces[i..][1..] == pieces[i + 1..];
  }

  lemma SentNext(sent0: seq<Piece>, pieces: seq<Piece>, i: nat)
    requires i < |pieces|
    ensures (sent0 + pieces[..i]) + [pieces[i]] == sent0 + pieces[..i + 1]
  {
    assert pieces[..i + 1] == pieces[..i] + [pieces[i]];
  }

  /** The text, the last finish reason and whether a tool was called, so far. */
  predicate Collected(text0: string, whole: Whole, text: string, finish: string, sawTool: bool) {
    text == text0 + whole.content && finish == whole.finish && (sawTool <==> whole.calls != [])
  }

  lemma CollectNext(text0: string, whole: Whole, text: string, finish: string, sawTool: bool, p: Piece)
    requires Collected(text0, whole, text, finish, sawTool)
    ensures Collected(text0, Joined(whole, p), text + p.content, if p.finish != "" then p.finish else finish,
                      sawTool || |p.calls| > 0)
  {
    Rejoin(text0, whole.content, p.content);
  }

  /** What has been collected, with what is left, makes up the whole. */
  predicate JoinsUp(whole: Whole, pieces: seq<Piece>, i: nat)
    requires i <= |pieces|
  {
    JoinedAll(whole, pieces[i..]) == JoinedAll(NOTHING_YET, pieces)
  }

  lemma JoinNext(whole: Whole, pieces: seq<Piece>, i: nat)
    requires i < |pieces| && JoinsUp(whole, pieces, i)
    ensures JoinsUp(Joined(whole, pieces[i]), pieces, i + 1)
  {
    assert pieces[i..][1..] == pieces[i + 1..];
  }

  /** Copies one stream, collecting its text, its last finish reason and whether it called a
      tool, until it ends or the consumer goes away. */
  method Forward(r: Reply, takes: nat -> bool, sent0: seq<Piece>, text0: string)
    returns (sent: seq<Piece>, text: string, finish: string, sawTool: bool, closed: bool)
    ensures var k := Taken(takes, |sent0|, r.pieces);
            && (closed <==> k < |r.pieces|)
            && (if closed then sent == sent0 + r.pieces[..k] else sent == sent0 + r.pieces)
    ensures !closed ==> Collected(text0, JoinedAll(NOTHING_YET, r.pieces), text, finish, sawTool)
  {
    sent, text, finish, sawTool := sent0, text0, "", false;
    ghost var whole := NOTHING_YET;
    var i := 0;
    while i < |r.pieces|
      invariant 0 <= i <= |r.pieces|
      invariant sent == sent0 + r.pieces[..i] && |sent| == |sent0| + i
      invariant TakenSoFar(takes, |sent0|, r.pieces, |sent|, i) && JoinsUp(whole, r.pieces, i)
      invariant Collected(text0, whole, text, finish, sawTool)
    {
      var p := r.pieces[i];
      CollectNext(text0, whole, text, finish, sawTool, p);
      JoinNext(whole, r.pieces, i);
      text := text + p.content;
      if |p.calls| > 0 {
        sawTool := true;
      }
      if p.finish != "" {
        finish := p.finish;
      }
      TakenNext(takes, |sent0|, r.pieces, |sent|, i);
      if !takes(|sent|) {
        return sent, text, finish, sawTool, true;
      }
      SentNext(sent0, r.pieces, i);
      sent := sent + [p];
      whole := Joined(whole, p);
      i := i + 1;
    }
    assert r.pieces[..|r.pieces|] == r.pieces;
    closed := false;
  }

  lemma AheadTwice(sent: seq<Piece>, asked: seq<seq<Msg>>, pieces: seq<Piece>, t: seq<Msg>, rest: Streamed)
    ensures Ahead(sent, asked, Ahead(pieces, [t], rest)) == Ahead(sent + pieces, asked + [t], rest)
  {
    Rejoin(sent, pieces, rest.sent);
    Rejoin(asked, [t], rest.asked);
  }

  /** A round whose chunks are all taken and that is followed by another. */
  lemma NextRound(model: Model, takes: nat -> bool, own: seq<Msg>, t: seq<Msg>, text: string, round: nat,
                  sent: seq<Piece>, asked: seq<seq<Msg>>)
    requires round < MAX_CONTINUATIONS
    requires var r := model.reply(round, t); GoesOn(model, r, round) && Taken(takes, |sent|, r.pieces) == |r.pieces|
    ensures var r := model.reply(round, t);
            var text' := text + JoinedAll(NOTHING_YET, r.pieces).content;
            Ahead(sent, asked, StreamedTo(model, takes, own, t, text, |sent|, round)) ==
            Ahead(sent + r.pieces, asked + [t],
                  StreamedTo(model, takes, own, ResumeTranscript(own, text'), text', |sent + r.pieces|, round + 1))
  {
    var r := model.reply(round, t);
    var text' := text + JoinedAll(NOTHING_YET, r.pieces).content;
    AheadTwice(sent, asked, r.pieces, t,
               StreamedTo(model, takes, own, ResumeTranscript(own, text'), text', |sent + r.pieces|, round + 1));
  }

  lemma AfterRound(model: Model, takes: nat -> bool, own: seq<Msg>, t: seq<Msg>, text: string, round: nat,
                   sent: seq<Piece>, asked: seq<seq<Msg>>, more: seq<Piece>, next: string)
    requires round < MAX_CONTINUATIONS && GoesOn(model, model.reply(round, t), round)
    requires var pieces := model.reply(round, t).pieces;
             && Taken(takes, |sent|, pieces) == |pieces| && more == sent + pieces
             && next == text + JoinedAll(NOTHING_YET, pieces).content
    ensures Ahead(sent, asked, StreamedTo(model, takes, own, t, text, |sent|, round)) ==
            Ahead(more, asked + [t],
                  StreamedTo(model, takes, own, ResumeTranscript(own, next), next, |more|, round + 1))
  {
    NextRound(model, takes, own, t, text, round, sent, asked);
  }

  /** A round that is the last: the consumer goes away, or nothing follows. */
  lemma LastRound(model: Model, takes: nat -> bool, own: seq<Msg>, t: seq<Msg>, text: string, round: nat,
                  sent: seq<Piece>, asked: seq<seq<Msg>>)
    requires round <= MAX_CONTINUATIONS
    requires var r := model.reply(round, t); Taken(takes, |sent|, r.pieces) < |r.pieces| || !GoesOn(model, r, round)
    ensures var r := model.reply(round, t);
            var k := Taken(takes, |sent|, r.pieces);
            Ahead(sent, asked, StreamedTo(model, takes, own, t, text, |sent|, round)) ==
            Streamed(sent + r.pieces[..k], k == |r.pieces| && r.broken, asked + [t])
  {
    var r := model.reply(round, t);
    assert r.pieces[..|r.pieces|] == r.pieces;
  }

  method StreamResuming(model: Model, takes: nat -> bool, own: seq<Msg>)
    returns (sent: seq<Piece>, failed: bool, asked: seq<seq<Msg>>)
    ensures Streamed(sent, failed, asked) == StreamedTo(model, takes, own, own, "", 0, 0)
  {
    sent, asked := [], [];
    var text, t, round := "", own, 0;
    ghost var all := StreamedTo(model, takes, own, own, "", 0, 0);
    while true
      invariant 0 <= round <= MAX_CONTINUATIONS
      invariant all == Ahead(sent, asked, StreamedTo(model, takes, own, t, text, |sent|, round))
      decreases MAX_CONTINUATIONS - round
    {
      var r := model.reply(round, t);
      var more, next, finish, sawTool, closed := Forward(r, takes, sent, text);
      if !closed && r.broken {
        LastRound(model, takes, own, t, text, round, sent, asked);
        return more, true, asked + [t];
      }
      if closed || round >= MAX_CONTINUATIONS || !HitOutputLimit(finish, sawTool) || !model.wanted(round) {
        LastRound(model, takes, own, t, text, round, sent, asked);
        return more, false, asked + [t];
      }
      AfterRound(model, takes, own, t, text, round, sent, asked, more, next);
      sent, asked, text, round := more, asked + [t], next, round + 1;
      t := ResumeTranscript(own, text);
    }
  }

  // ------------------------------------------------------------ a consumer who goes away

  lemma {:induction false} TakenOfBoth(takes: nat -> bool, n: nat, a: seq<Piece>, b: seq<Piece>)
    ensures var k := Taken(takes, n, a);
            Taken(takes, n, a + b) == if k < |a| then k else |a| + Taken(takes, n + |a|, b)
    decreases |a|
  {
    if a == [] {
      assert a + b == b;
    } else {
      assert (a + b)[1..] == a[1..] + b;
      TakenOfBoth(takes, n + 1, a[1..], b);
    }
  }

  /** What a consumer sees who takes `k` chunks of a stream: all of it, or a part, no error,
      and no call that would not have been made anyway. */
  predicate Sees(all: Streamed, seen: Streamed, k: nat) {
    && k <= |all.sent| && seen.sent == all.sent[..k] && seen.asked <= all.asked
    && (if k == |all.sent| then seen == all else !seen.failed)
  }

  lemma SeesAhead(takes: nat -> bool, n: nat, pieces: seq<Piece>, t: seq<Msg>, all: Streamed, seen: Streamed)
    requires Sees(all, seen, Taken(takes, n + |pieces|, all.sent)) && Taken(takes, n, pieces) == |pieces|
    ensures Sees(Ahead(pieces, [t], all), Ahead(pieces, [t], seen), Taken(takes, n, pieces + all.sent))
  {
    TakenOfBoth(takes, n, pieces, all.sent);
  }

  lemma RefusedAhead(takes: nat -> bool, n: nat, pieces: seq<Piece>, t: seq<Msg>, all: Streamed)
    requires Taken(takes, n, pieces) < |pieces|
    ensures var k := Taken(takes, n, pieces);
            Sees(Ahead(pieces, [t], all), Streamed(pieces[..k], false, [t]), Taken(takes, n, pieces + all.sent))
  {
    TakenOfBoth(takes, n, pieces, all.sent);
  }

  /** A last round, whose stream ends or is closed. */
  lemma SeesLast(takes: nat -> bool, n: nat, r: Reply, t: seq<Msg>)
    ensures var k := Taken(takes, n, r.pieces);
            Sees(Streamed(r.pieces, r.broken, [t]),
                 if k < |r.pieces| then Streamed(r.pieces[..k], false, [t]) else Streamed(r.pieces, r.broken, [t]), k)
  {
    assert r.pieces[..|r.pieces|] == r.pieces;
  }

  /** A round that is followed by another one, unless its stream is closed. */
  lemma SeesRound(takes: nat -> bool, n: nat, pieces: seq<Piece>, t: seq<Msg>, all: Streamed, seen: Streamed)
    requires Sees(all, seen, Taken(takes, n + |pieces|, all.sent))
    ensures var k := Taken(takes, n, pieces);
            Sees(Ahead(pieces, [t], all),
                 if k < |pieces| then Streamed(pieces[..k], false, [t]) else Ahead(pieces, [t], seen),
                 Taken(takes, n, pieces + all.sent))
  {
    if Taken(takes, n, pieces) < |pieces| {
      RefusedAhead(takes, n, pieces, t, all);
    } else {
      SeesAhead(takes, n, pieces, t, all, seen);
    }
  }

  /** From a round on, a consumer sees the stream up to the first chunk that is refused. */
  predicate SeesFrom(model: Model, takes: nat -> bool, own: seq<Msg>, t: seq<Msg>, text: string, n: nat, round: nat)
    requires round <= MAX_CONTINUATIONS
  {
    var all := StreamedFrom(model, own, t, text, round);
    Sees(all, StreamedTo(model, takes, own, t, text, n, round), Taken(takes, n, all.sent))
  }

  lemma LastRoundSees(model: Model, takes: nat -> bool, own: seq<Msg>, t: seq<Msg>, text: string, n: nat, round: nat)
    requires round <= MAX_CONTINUATIONS && !GoesOn(model, model.reply(round, t), round)
    ensures SeesFrom(model, takes, own, t, text, n, round)
  {
    SeesLast(takes, n, model.reply(round, t), t);
  }

  lemma NextRoundSees(model: Model, takes: nat -> bool, own: seq<Msg>, t: seq<Msg>, text: string, n: nat, round: nat)
    requires round < MAX_CONTINUATIONS && GoesOn(model, model.reply(round, t), round)
    requires var pieces := model.reply(round, t).pieces;
             var text' := text + JoinedAll(NOTHING_YET, pieces).content;
             SeesFrom(model, takes, own, ResumeTranscript(own, text'), text', n + |pieces|, round + 1)
    ensures SeesFrom(model, takes, own, t, text, n, round)
  {
    var pieces := model.reply(round, t).pieces;
    var text' := text + JoinedAll(NOTHING_YET, pieces).content;
    var t' := ResumeTranscript(own, text');
    GoesOnFrom(model, own, t, text, round);
    GoesOnTo(model, takes, own, t, text, n, round);
    SeesRound(takes, n, pieces, t, StreamedFrom(model, own, t', text', round + 1),
              StreamedTo(model, takes, own, t', text', n + |pieces|, round + 1));
  }

  /** A consumer sees the stream up to the first chunk that is refused. */
  lemma {:induction false} ConsumerSees(model: Model, takes: nat -> bool, own: seq<Msg>, t: seq<Msg>, text: string,
                                        n: nat, round: nat)
    requires round <= MAX_CONTINUATIONS
    ensures SeesFrom(model, takes, own, t, text, n, round)
    decreases MAX_CONTINUATIONS - round
  {
    var r := model.reply(round, t);
    if GoesOn(model, r, round) {
      var text' := text + JoinedAll(NOTHING_YET, r.pieces).content;
      ConsumerSees(model, takes, own, ResumeTranscript(own, text'), text', n + |r.pieces|, round + 1);
      NextRoundSees(model, takes, own, t, text, n, round);
    } else {
      LastRoundSees(model, takes, own, t, text, n, round);
    }
  }

  // ------------------------------------------------------------------- the two agree

  /** Chunks join onto what is there. */
  lemma {:induction false} JoinedOnto(w: Whole, pieces: seq<Piece>)
    ensures var x := JoinedAll(NOTHING_YET, pieces);
            JoinedAll(w, pieces) ==
            Whole(w.content + x.content, w.calls + x.calls, if x.finish != "" then x.finish else w.finish)
    decreases |pieces|
  {
    if pieces != [] {
      var p, rest := pieces[0], pieces[1..];
      var x := JoinedAll(NOTHING_YET, rest);
      JoinedOnto(Joined(w, p), rest);
      JoinedOnto(Joined(NOTHING_YET, p), rest);
      Rejoin(w.content, p.content, x.content);
      Rejoin(w.calls, p.calls, x.calls);
      Nothing(p.content);
      Nothing(p.calls);
    } else {
      Nothing(w.content);
      Nothing(w.calls);
    }
  }

  lemma {:induction false} JoinedOfBoth(w: Whole, a: seq<Piece>, b: seq<Piece>)
    ensures JoinedAll(w, a + b) == JoinedAll(JoinedAll(w, a), b)
    decreases |a|
  {
    if a == [] {
      assert a + b == b;
    } else {
      assert (a + b)[1..] == a[1..] + b;
      JoinedOfBoth(Joined(w, a[0]), a[1..], b);
    }
  }

  /** The same further calls, the same end, the same text and the same tool calls; and the
      same finish reason, unless the last of several replies gives none. */
  predicate Agree(s: Streamed, b: Buffered, t: seq<Msg>, text: string) {
    var x := JoinedAll(NOTHING_YET, s.sent);
    && s.asked == [t] + b.asked
    && (s.failed <==> b.msg.None?)
    && (b.msg.Some? ==>
          && b.msg.value.content == text + x.content && b.msg.value.calls == x.calls
          && (b.msg.value.finish == x.finish <==> b.msg.value.finish != "" || b.asked == []))
  }

  /** Agreement carries over to a round before, which was cut off. */
  lemma AgreeBefore(s: Streamed, b: Buffered, t': seq<Msg>, text: string, pieces: seq<Piece>, t: seq<Msg>)
    requires var whole := JoinedAll(NOTHING_YET, pieces); CutOff(whole) && Agree(s, b, t', text + whole.content)
    ensures Agree(Ahead(pieces, [t], s), Asking([t'], b), t, text)
  {
    var whole, x := JoinedAll(NOTHING_YET, pieces), JoinedAll(NOTHING_YET, s.sent);
    JoinedOfBoth(NOTHING_YET, pieces, s.sent);
    JoinedOnto(whole, s.sent);
    Rejoin(text, whole.content, x.content);
    assert whole.calls == [] && whole.finish != "";
    Nothing(x.calls);
  }

  /** From a round on the two agree, when its own reply is not broken. */
  lemma {:induction false} RoundsAgree(model: Model, own: seq<Msg>, t: seq<Msg>, text: string, round: nat)
    requires round <= MAX_CONTINUATIONS && !model.reply(round, t).broken
    ensures var whole := JoinedAll(NOTHING_YET, model.reply(round, t).pieces);
            Agree(StreamedFrom(model, own, t, text, round),
                  BufferedFrom(model, own, whole.(content := text + whole.content), round), t, text)
    decreases MAX_CONTINUATIONS - round
  {
    var r := model.reply(round, t);
    var whole := JoinedAll(NOTHING_YET, r.pieces);
    Nothing([t]);
    if round < MAX_CONTINUATIONS && CutOff(whole) && model.wanted(round) {
      var text' := text + whole.content;
      var t' := ResumeTranscript(own, text');
      if model.reply(round + 1, t').broken {
        Nothing([t']);
      } else {
        RoundsAgree(model, own, t', text', round + 1);
        var next := JoinedAll(NOTHING_YET, model.reply(round + 1, t').pieces);
        AgreeBefore(StreamedFrom(model, own, t', text', round + 1),
                    BufferedFrom(model, own, next.(content := text' + next.content), round + 1), t', text, r.pieces, t);
      }
    }
  }

  /** A buffered and a streamed call against the same model make the same calls with the same
      transcripts, fail or succeed together, and give the same text and tool calls. They give
      the same finish reason exactly when the buffered one has one or was not resumed: chunks
      without a reason keep the one of the reply that was cut off. */
  lemma BufferedAgreesWithStreamed(model: Model, own: seq<Msg>)
    ensures var b, s := Generated(model, own), StreamedFrom(model, own, own, "", 0);
            var x := JoinedAll(NOTHING_YET, s.sent);
            && b.asked == s.asked
            && (b.msg.None? <==> s.failed)
            && (b.msg.Some? ==>
                  && b.msg.value.content == x.content && b.msg.value.calls == x.calls
                  && (b.msg.value.finish == x.finish <==> b.msg.value.finish != "" || |b.asked| == 1))
  {
    var r := model.reply(0, own);
    if !r.broken {
      RoundsAgree(model, own, own, "", 0);
      var whole := JoinedAll(NOTHING_YET, r.pieces);
      Nothing(whole.content);
      assert whole.(content := whole.content) == whole;
      Nothing(JoinedAll(NOTHING_YET, StreamedFrom(model, own, own, "", 0).sent).content);
    }
  }

  /** The transcript with some of the reply and the request to carry on. */
  predicate IsResumed(t: seq<Msg>, own: seq<Msg>) {
    |t| == |own| + 2 && t[|own|].Assistant? && t == ResumeTranscript(own, t[|own|].content)
  }

  /** What is asked: the transcript itself, then the transcript with ever more of the reply;
      a call is resumed at most four times. */
  lemma {:induction false} AskedBounded(model: Model, own: seq<Msg>, t: seq<Msg>, text: string, round: nat)
    requires round <= MAX_CONTINUATIONS
    ensures var asked := StreamedFrom(model, own, t, text, round).asked;
            && 0 < |asked| <= 1 + MAX_CONTINUATIONS - round && asked[0] == t
            && forall k :: 0 < k < |asked| ==> IsResumed(asked[k], own)
    decreases MAX_CONTINUATIONS - round
  {
    var r := model.reply(round, t);
    var whole := JoinedAll(NOTHING_YET, r.pieces);
    if GoesOn(model, r, round) {
      var text' := text + whole.content;
      var t' := ResumeTranscript(own, text');
      AskedBounded(model, own, t', text', round + 1);
      var rest := StreamedFrom(model, own, t', text', round + 1).asked;
      forall k | 0 < k < 1 + |rest| ensures IsResumed(([t] + rest)[k], own) {
        assert ([t] + rest)[k] == rest[k - 1];
      }
    }
  }

  /** The first call asks the transcript itself, the others end with the request to carry on. */
  lemma FirstIsAskedFirst(model: Model, own: seq<Msg>)
    ensures var asked := Generated(model, own).asked;
            && 0 < |asked| <= 1 + MAX_CONTINUATIONS && asked[0] == own
            && forall k :: 0 < k < |asked| ==> IsResumed(asked[k], own)
  {
    BufferedAgreesWithStreamed(model, own);
    AskedBounded(model, own, own, "", 0);
  }

  /** At most five calls, and every one is acceptable to a provider when the first is. */
  lemma ResumedCallsAreWellFormed(model: Model, own: seq<Msg>)
    requires WellFormed(own)
    ensures var asked := Generated(model, own).asked;
            && 0 < |asked| <= 1 + MAX_CONTINUATIONS
            && forall k :: 0 <= k < |asked| ==> WellFormed(asked[k]) && own <= asked[k]
  {
    FirstIsAskedFirst(model, own);
    var asked := Generated(model, own).asked;
    forall k | 0 <= k < |asked| ensures WellFormed(asked[k]) && own <= asked[k] {
      if k > 0 {
        assert IsResumed(asked[k], own);
        ResumeIsWellFormed(own, asked[k][|own|].content);
      }
    }
  }

  lemma ResumeIsWellFormed(own: seq<Msg>, partial: string)
    requires WellFormed(own)
    ensures WellFormed(ResumeTranscript(own, partial))
  {
    var a, u := Assistant(partial, []), Noticed(CarryOn, "");
    WellFormedSingle(a);
    WellFormedSingle(u);
    WellFormedAppend([a], [u]);
    assert [a] + [u] == [a, u];
    WellFormedAppend(own, [a, u]);
  }

  /** The last finish reason of a reply is the output limit, in any case, and no tool is called. */
  predicate EndsAtLimit(pieces: seq<Piece>) {
    && (forall k :: 0 <= k < |pieces| ==> pieces[k].calls == [])
    && exists k :: 0 <= k < |pieces| && ToLower(pieces[k].finish) in ["length", "max_tokens"]
                   && forall j :: k < j < |pieces| ==> pieces[j].finish == ""
  }

  /** The text of a reply. */
  function Wording(pieces: seq<Piece>): string {
    if pieces == [] then "" else pieces[0].content + Wording(pieces[1..])
  }

  lemma {:induction false} JoinedIsWording(pieces: seq<Piece>)
    ensures var x := JoinedAll(NOTHING_YET, pieces);
            && x.content == Wording(pieces)
            && (x.calls == [] <==> forall k :: 0 <= k < |pieces| ==> pieces[k].calls == [])
            && (x.finish == "" <==> forall k :: 0 <= k < |pieces| ==> pieces[k].finish == "")
            && (x.finish != "" ==> exists k :: 0 <= k < |pieces| && pieces[k].finish == x.finish
                                               && forall j :: k < j < |pieces| ==> pieces[j].finish == "")
  {
    if pieces != [] {
      var p, rest := pieces[0], pieces[1..];
      JoinedIsWording(rest);
      JoinedOnto(Joined(NOTHING_YET, p), rest);
      Nothing(p.content);
      Nothing(p.calls);
      assert forall k :: 0 < k < |pieces| ==> pieces[k] == rest[k - 1];
      var x := JoinedAll(NOTHING_YET, rest);
      if x.finish != "" {
        var k :| 0 <= k < |rest| && rest[k].finish == x.finish && forall j :: k < j < |rest| ==> rest[j].finish == "";
        assert pieces[k + 1].finish == x.finish;
      } else {
        assert pieces[0].finish == p.finish;
      }
    }
  }

  lemma CutOffIsLimit(pieces: seq<Piece>)
    ensures CutOff(JoinedAll(NOTHING_YET, pieces)) <==> EndsAtLimit(pieces)
  {
    JoinedIsWording(pieces);
    var x := JoinedAll(NOTHING_YET, pieces);
    if EndsAtLimit(pieces) {
      var k :| 0 <= k < |pieces| && ToLower(pieces[k].finish) in ["length", "max_tokens"]
               && forall j :: k < j < |pieces| ==> pieces[j].finish == "";
      assert pieces[k].finish != "";
    }
  }

  function ReplyText(model: Model, round: nat, t: seq<Msg>): string {
    Wording(model.reply(round, t).pieces)
  }

  /** The texts of the replies to what was asked from a round on. */
  function ReplyTexts(model: Model, asked: seq<seq<Msg>>, round: nat): seq<string> {
    seq(|asked|, k requires 0 <= k < |asked| => ReplyText(model, round + k, asked[k]))
  }

  /** The text of the first `n` of them. */
  function RepliesText(model: Model, asked: seq<seq<Msg>>, round: nat, n: nat): string
    requires n <= |asked|
  {
    Concat(ReplyTexts(model, asked, round)[..n])
  }

  lemma RepliesTextBehind(model: Model, t: seq<Msg>, rest: seq<seq<Msg>>, round: nat, n: nat)
    requires n <= |rest|
    ensures RepliesText(model, [t] + rest, round, n + 1) ==
            ReplyText(model, round, t) + RepliesText(model, rest, round + 1, n)
  {
    var first, texts := ReplyText(model, round, t), ReplyTexts(model, rest, round + 1);
    assert ReplyTexts(model, [t] + rest, round) == [first] + texts;
    assert ([first] + texts)[..n + 1] == [first] + texts[..n];
    Cons(first, texts[..n]);
  }

  /** The call asked at `k` is followed by another one exactly when there have been fewer than
      five, its reply ended whole and at the output limit, and the turn is still wanted; what is
      asked then is the transcript with the text so far and the request to carry on. */
  predicate Follows(model: Model, own: seq<Msg>, text: string, asked: seq<seq<Msg>>, round: nat, k: nat)
    requires k < |asked|
  {
    var r := model.reply(round + k, asked[k]);
    && (k + 1 < |asked| <==> round + k < 4 && !r.broken && EndsAtLimit(r.pieces) && model.wanted(round + k))
    && (k + 1 < |asked| ==>
          asked[k + 1] == own + [Assistant(text + RepliesText(model, asked, round, k + 1), []), Noticed(CarryOn, "")])
  }

  lemma FollowsBehind(model: Model, own: seq<Msg>, text: string, t: seq<Msg>, rest: seq<seq<Msg>>, round: nat, k: nat)
    requires k < |rest|
    requires Follows(model, own, text + ReplyText(model, round, t), rest, round + 1, k)
    ensures Follows(model, own, text, [t] + rest, round, k + 1)
  {
    var asked := [t] + rest;
    assert asked[k + 1] == rest[k];
    if k + 1 < |rest| {
      assert asked[k + 2] == rest[k + 1];
      RepliesTextBehind(model, t, rest, round, k + 1);
      Rejoin(text, ReplyText(model, round, t), RepliesText(model, rest, round + 1, k + 1));
    }
  }

  lemma FollowsFirst(model: Model, own: seq<Msg>, t: seq<Msg>, text: string, round: nat)
    requires round <= MAX_CONTINUATIONS
    ensures Follows(model, own, text, StreamedFrom(model, own, t, text, round).asked, round, 0)
  {
    var r := model.reply(round, t);
    var s := StreamedFrom(model, own, t, text, round);
    CutOffIsLimit(r.pieces);
    JoinedIsWording(r.pieces);
    AskedBounded(model, own, t, text, round);
    var rest := s.asked[1..];
    HeadTail(s.asked);
    RepliesTextBehind(model, t, rest, round, 0);
    Nothing(Wording(r.pieces));
    if GoesOn(model, r, round) {
      AskedBounded(model, own, ResumeTranscript(own, text + Wording(r.pieces)), text + Wording(r.pieces), round + 1);
    }
  }

  predicate AllFollow(model: Model, own: seq<Msg>, text: string, asked: seq<seq<Msg>>, round: nat) {
    forall k :: 0 <= k < |asked| ==> Follows(model, own, text, asked, round, k)
  }

  lemma OneMoreFollows(model: Model, own: seq<Msg>, text: string, t: seq<Msg>, rest: seq<seq<Msg>>, round: nat)
    requires AllFollow(model, own, text + ReplyText(model, round, t), rest, round + 1)
    requires Follows(model, own, text, [t] + rest, round, 0)
    ensures AllFollow(model, own, text, [t] + rest, round)
  {
    forall k | 0 <= k < 1 + |rest| ensures Follows(model, own, text, [t] + rest, round, k) {
      if k > 0 {
        FollowsBehind(model, own, text, t, rest, round, k - 1);
      }
    }
  }

  lemma {:induction false} RoundsFollow(model: Model, own: seq<Msg>, t: seq<Msg>, text: string, round: nat)
    requires round <= MAX_CONTINUATIONS
    ensures AllFollow(model, own, text, StreamedFrom(model, own, t, text, round).asked, round)
    decreases MAX_CONTINUATIONS - round
  {
    var r := model.reply(round, t);
    FollowsFirst(model, own, t, text, round);
    if GoesOn(model, r, round) {
      JoinedIsWording(r.pieces);
      GoesOnFrom(model, own, t, text, round);
      var text' := text + Wording(r.pieces);
      var t' := ResumeTranscript(own, text');
      RoundsFollow(model, own, t', text', round + 1);
      OneMoreFollows(model, own, text, t, StreamedFrom(model, own, t', text', round + 1).asked, round);
    } else {
      assert StreamedFrom(model, own, t, text, round).asked == [t];
    }
  }

  /** Every call is resumed exactly when its reply ended at the output limit, up to the fifth. */
  lemma ResumedExactly(model: Model, own: seq<Msg>)
    ensures var asked := Generated(model, own).asked;
            && asked != [] && asked[0] == own
            && AllFollow(model, own, "", asked, 0)
  {
    BufferedAgreesWithStreamed(model, own);
    AskedBounded(model, own, own, "", 0);
    RoundsFollow(model, own, own, "", 0);
  }

  /** A reply is returned cut off only when the fifth call was, or nobody wants it any more:
      a turn that stays wanted never hands on a partial answer earlier. */
  lemma {:induction false} CutOffOnlyAtTheEnd(model: Model, own: seq<Msg>, msg: Whole, i: nat)
    requires i <= MAX_CONTINUATIONS
    requires forall k :: model.wanted(k)
    ensures var b := BufferedFrom(model, own, msg, i);
            b.msg.Some? && CutOff(b.msg.value) ==> |b.asked| == MAX_CONTINUATIONS - i
    decreases MAX_CONTINUATIONS - i
  {
    if i < MAX_CONTINUATIONS && CutOff(msg) {
      var r := model.reply(i + 1, ResumeTranscript(own, msg.content));
      if !r.broken {
        var next := JoinedAll(NOTHING_YET, r.pieces);
        CutOffOnlyAtTheEnd(model, own, next.(content := msg.content + next.content), i + 1);
      }
    }
  }

  lemma PartialOnlyAfterFiveCalls(model: Model, own: seq<Msg>)
    requires forall k :: model.wanted(k)
    ensures var b := Generated(model, own);
            b.msg.Some? && CutOff(b.msg.value) ==> |b.asked| == 1 + MAX_CONTINUATIONS
  {
    var r := model.reply(0, own);
    if !r.broken {
      CutOffOnlyAtTheEnd(model, own, JoinedAll(NOTHING_YET, r.pieces), 0);
    }
  }
}
