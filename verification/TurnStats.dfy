/**
 What a turn counts and matches while it runs (internal/agent/assembler.go): model calls,
 tokens, repaired values, and the starts and ends of tool calls.
 */
module TurnStats {
  import opened Util
  import opened Sequences
  import opened LineFeed
  import opened GuardState
  import opened AssemblerState
  import opened BlockText
  import EventStream
  import GuardRender

  // ------------------------------------------------------------ model calls and tokens

  function ModelCalls(calls: seq<AssemblerState.Call>): nat
    decreases |calls|
  {
    if calls == [] then 0
    else ModelCalls(calls[..|calls| - 1]) + if calls[|calls| - 1].DoCallDone? then 1 else 0
  }

  function Completion(c: AssemblerState.Call): int {
    if c.DoCallDone? && c.usage.Some? then c.usage.value.completion else 0
  }

  function Completions(calls: seq<AssemblerState.Call>): int
    decreases |calls|
  {
    if calls == [] then 0 else Completions(calls[..|calls| - 1]) + Completion(calls[|calls| - 1])
  }

  lemma CloseCountsNoCalls(a: Asm, env: Env)
    ensures Close(a, env).stats.steps == a.stats.steps && Close(a, env).stats.outTokens == a.stats.outTokens
  {
  }

  lemma {:induction false} ToolCallsCountNoCalls(a: Asm, calls: seq<ToolCall>, env: Env)
    ensures CallTools(a, calls, env).stats.steps == a.stats.steps
    ensures CallTools(a, calls, env).stats.outTokens == a.stats.outTokens
    decreases |calls|
  {
    if calls != [] {
      CloseCountsNoCalls(a, env);
      ToolCallsCountNoCalls(CallTool(a, calls[0], env), calls[1..], env);
    }
  }

  lemma ChunkCountsNoCalls(a: Asm, m: Chunk, env: Env)
    ensures Apply(a, DoChunk(m), env).stats.steps == a.stats.steps
    ensures Apply(a, DoChunk(m), env).stats.outTokens == a.stats.outTokens
  {
    var b := Reason(a, m.reasoning, env);
    CloseCountsNoCalls(a, env);
    CloseCountsNoCalls(b, env);
    ToolCallsCountNoCalls(Say(b, m.content, env), m.calls, env);
  }

  lemma CallCounts(a: Asm, c: AssemblerState.Call, env: Env)
    ensures Apply(a, c, env).stats.steps == a.stats.steps + if c.DoCallDone? then 1 else 0
    ensures Apply(a, c, env).stats.outTokens == a.stats.outTokens + Completion(c)
  {
    match c
    case DoChunk(m) => ChunkCountsNoCalls(a, m, env);
    case DoCallDone(_, _) => CloseCountsNoCalls(a.(stats := a.stats.(steps := a.stats.steps + 1)), env);
    case DoFail(errType, errMsg) =>
      CloseCountsNoCalls(a.(stats := a.stats.(failed := true, errType := errType, errMsg := errMsg)), env);
    case _ => CloseCountsNoCalls(a, env);
  }

  /** Every model call is counted once, and every completion token once. */
  lemma {:induction false} EveryCallCounts(calls: seq<AssemblerState.Call>, env: Env)
    ensures Run(calls, env).stats.steps == ModelCalls(calls)
    ensures Run(calls, env).stats.outTokens == Completions(calls)
    decreases |calls|
  {
    if calls != [] {
      EveryCallCounts(calls[..|calls| - 1], env);
      CallCounts(Run(calls[..|calls| - 1], env), calls[|calls| - 1], env);
    }
  }

  // --------------------------------------------------------------- repaired values

  function FixesIn(done: seq<seq<string>>, fix: Fixer): nat
    decreases |done|
  {
    if done == [] then 0 else FixesIn(done[..|done| - 1], fix) + GuardRender.ReceivedFixes(done[|done| - 1], fix)
  }

  /** The texts agree with the chunks so far, and so does the number of fixes. */
  ghost predicate CountsAgree(a: Asm, t: Talk, env: Env) {
    Agrees(a.stream, t, env) && a.stats.jsonFixes == FixesIn(t.done, env.fix)
  }

  lemma CloseCounts(a: Asm, t: Talk, env: Env)
    requires CountsAgree(a, t, env)
    ensures CountsAgree(Close(a, env), Broken(t), env)
  {
    CloseAgrees(a.stream, t, env);
    if t.open.Some? {
    }
  }

  lemma ReasonCounts(a: Asm, text: string, t: Talk, env: Env)
    requires CountsAgree(a, t, env)
    ensures CountsAgree(Reason(a, text, env), if text != "" then Broken(t) else t, env)
  {
    ReasonAgrees(a, text, t, env);
    CloseCounts(a, t, env);
  }

  lemma SayCounts(a: Asm, text: string, t: Talk, env: Env)
    requires CountsAgree(a, t, env)
    ensures CountsAgree(Say(a, text, env), if text != "" then Continued(t, text) else t, env)
  {
    SayAgrees(a, text, t, env);
    CloseCounts(a, t, env);
  }

  lemma CallToolCounts(a: Asm, tc: ToolCall, t: Talk, env: Env)
    requires CountsAgree(a, t, env)
    ensures CountsAgree(CallTool(a, tc, env), Broken(t), env)
  {
    CallToolAgrees(a, tc, t, env);
    CloseCounts(a, t, env);
  }

  lemma {:induction false} CallToolsCount(a: Asm, calls: seq<ToolCall>, t: Talk, env: Env)
    requires CountsAgree(a, t, env)
    ensures CountsAgree(CallTools(a, calls, env), if calls != [] then Broken(t) else t, env)
    decreases |calls|
  {
    if calls != [] {
      CallToolCounts(a, calls[0], t, env);
      CallToolsCount(CallTool(a, calls[0], env), calls[1..], Broken(t), env);
    }
  }

  lemma ChunkCounts(a: Asm, m: Chunk, t: Talk, env: Env)
    requires CountsAgree(a, t, env)
    ensures CountsAgree(ModelChunk(a, m, env), Heard(t, m), env)
  {
    ReasonCounts(a, m.reasoning, t, env);
    var u := if m.reasoning != "" then Broken(t) else t;
    SayCounts(Reason(a, m.reasoning, env), m.content, u, env);
    CallToolsCount(Say(Reason(a, m.reasoning, env), m.content, env), m.calls,
                   if m.content != "" then Continued(u, m.content) else u, env);
  }

  /** The calls that close a block count what closing it counts. */
  lemma ClosingCounts(a: Asm, c: AssemblerState.Call, env: Env)
    requires EventStream.Closes(c)
    ensures Apply(a, c, env).stats.jsonFixes == Close(a, env).stats.jsonFixes
  {
  }

  /** The number reported for a turn is that of the values rewritten in its closed text
      blocks. */
  lemma {:induction false} FixesAreCounted(calls: seq<AssemblerState.Call>, env: Env)
    ensures CountsAgree(Run(calls, env), Spoken(calls), env)
    decreases |calls|
  {
    StoredTextsAreOutputs(calls, env);
    if calls != [] {
      var before, c := calls[..|calls| - 1], calls[|calls| - 1];
      FixesAreCounted(before, env);
      var a, t := Run(before, env), Spoken(before);
      if c.DoChunk? {
        ChunkCounts(a, c.chunk, t, env);
      } else if EventStream.Closes(c) {
        CloseCounts(a, t, env);
        ClosingCounts(a, c, env);
      }
    }
  }

  // ------------------------------------------------------------------ tool calls

  /** A call as its events name it. */
  datatype Named = Named(name: string, id: string)

  function NameOf(r: ToolRef): Named {
    Named(r.name, r.id)
  }

  /** The calls that have started, with what they were started with. */
  function Started(refs: seq<ToolRef>): multiset<(Named, string)> {
    if refs == [] then multiset{}
    else (if refs[0].started then multiset{(NameOf(refs[0]), refs[0].input)} else multiset{}) + Started(refs[1..])
  }

  function Ended(refs: seq<ToolRef>): multiset<Named> {
    if refs == [] then multiset{}
    else (if refs[0].done then multiset{NameOf(refs[0])} else multiset{}) + Ended(refs[1..])
  }

  function StartEvent(e: Event): multiset<(Named, string)> {
    if e.ToolExecStart? then multiset{(Named(e.name, e.id), e.input)} else multiset{}
  }

  function StopEvent(e: Event): multiset<Named> {
    if e.ToolExecStop? then multiset{Named(e.name, e.id)} else multiset{}
  }

  function StartEvents(events: seq<Event>): multiset<(Named, string)>
    decreases |events|
  {
    if events == [] then multiset{} else StartEvents(events[..|events| - 1]) + StartEvent(events[|events| - 1])
  }

  function StopEventsOf(events: seq<Event>): multiset<Named>
    decreases |events|
  {
    if events == [] then multiset{} else StopEventsOf(events[..|events| - 1]) + StopEvent(events[|events| - 1])
  }

  lemma {:induction false} StartOne(refs: seq<ToolRef>, k: nat)
    requires k < |refs| && !refs[k].started
    ensures var refs' := refs[k := refs[k].(started := true)];
            Started(refs') == Started(refs) + multiset{(NameOf(refs[k]), refs[k].input)} && Ended(refs') == Ended(refs)
  {
    var refs' := refs[k := refs[k].(started := true)];
    if k == 0 {
      assert refs'[1..] == refs[1..];
    } else {
      assert refs'[1..] == refs[1..][k - 1 := refs[k].(started := true)];
      StartOne(refs[1..], k - 1);
    }
  }

  lemma {:induction false} EndOne(refs: seq<ToolRef>, k: nat)
    requires k < |refs| && !refs[k].done
    ensures var refs' := refs[k := refs[k].(done := true)];
            Ended(refs') == Ended(refs) + multiset{NameOf(refs[k])} && Started(refs') == Started(refs)
  {
    var refs' := refs[k := refs[k].(done := true)];
    if k == 0 {
      assert refs'[1..] == refs[1..];
    } else {
      assert refs'[1..] == refs[1..][k - 1 := refs[k].(done := true)];
      EndOne(refs[1..], k - 1);
    }
  }

  lemma {:induction false} AddOne(refs: seq<ToolRef>, r: ToolRef)
    requires !r.started && !r.done
    ensures Started(refs + [r]) == Started(refs) && Ended(refs + [r]) == Ended(refs)
  {
    if refs == [] {
      Nothing([r]);
      assert [r][1..] == [];
    } else {
      assert (refs + [r])[1..] == refs[1..] + [r];
      AddOne(refs[1..], r);
    }
  }

  lemma OneMoreEvent(events: seq<Event>, e: Event)
    ensures StartEvents(events + [e]) == StartEvents(events) + StartEvent(e)
    ensures StopEventsOf(events + [e]) == StopEventsOf(events) + StopEvent(e)
  {
    assert (events + [e])[..|events|] == events;
  }

  /** A start takes a call that has not started, an end one that has and has not ended. */
  lemma {:induction false} PendingIsFresh(refs: seq<ToolRef>, name: string, norm: string, json: Json)
    ensures var k := MatchPending(refs, name, norm, json);
            k < |refs| ==> !refs[k].started && refs[k].name == name
    ensures var k := MatchByName(refs, name);
            k < |refs| ==> !refs[k].started && refs[k].name == name
    ensures var k := MatchStarted(refs, name);
            k < |refs| ==> refs[k].started && !refs[k].done && refs[k].name == name
  {
    if refs != [] {
      PendingIsFresh(refs[1..], name, norm, json);
    }
  }

  /** Only started calls have ended; the start events name the calls that have started, each
      once, with what they were started with; and every call that has ended has an end event
      of its own, which names it. */
  predicate RefsAgree(events: seq<Event>, refs: seq<ToolRef>) {
    && (forall k :: 0 <= k < |refs| && refs[k].done ==> refs[k].started)
    && StartEvents(events) == Started(refs)
    && StopEventsOf(events) >= Ended(refs)
  }

  ghost predicate ToolsAgree(a: Asm) {
    RefsAgree(a.stream.events, a.pending)
  }

  lemma StartAgrees(events: seq<Event>, refs: seq<ToolRef>, k: nat)
    requires RefsAgree(events, refs) && k < |refs| && !refs[k].started
    ensures RefsAgree(events + [ToolExecStart(refs[k].name, refs[k].id, refs[k].input)],
                      refs[k := refs[k].(started := true)])
  {
    StartOne(refs, k);
    OneMoreEvent(events, ToolExecStart(refs[k].name, refs[k].id, refs[k].input));
  }

  lemma EndAgrees(events: seq<Event>, refs: seq<ToolRef>, k: nat, response: string, isErr: bool)
    requires RefsAgree(events, refs) && k < |refs| && refs[k].started && !refs[k].done
    ensures RefsAgree(events + [ToolExecStop(refs[k].name, refs[k].id, response, isErr)],
                      refs[k := refs[k].(done := true)])
  {
    EndOne(refs, k);
    OneMoreEvent(events, ToolExecStop(refs[k].name, refs[k].id, response, isErr));
  }

  /** Events that start no call leave the agreement alone. */
  lemma EventAgrees(events: seq<Event>, refs: seq<ToolRef>, e: Event)
    requires RefsAgree(events, refs) && !e.ToolExecStart?
    ensures RefsAgree(events + [e], refs)
  {
    OneMoreEvent(events, e);
  }

  lemma ToolStartAgrees(a: Asm, name: string, args: string, env: Env)
    requires ToolsAgree(a)
    ensures ToolsAgree(ToolStart(a, name, args, env))
  {
    var k := PendingFor(a.pending, name, args, env.json);
    PendingIsFresh(a.pending, name, env.json.normal(args), env.json);
    if k < |a.pending| {
      StartAgrees(a.stream.events, a.pending, k);
    } else {
      var added := ToolRef("", name, args, false, false);
      AddOne(a.pending, added);
      StartAgrees(a.stream.events, a.pending + [added], |a.pending|);
    }
  }

  lemma ToolEndAgreesToo(a: Asm, name: string, response: string, isErr: bool)
    requires ToolsAgree(a)
    ensures ToolsAgree(ToolEnd(a, name, response, isErr))
  {
    var k := MatchStarted(a.pending, name);
    PendingIsFresh(a.pending, name, "", Json(x => x, x => x));
    if k < |a.pending| {
      EndAgrees(a.stream.events, a.pending, k, response, isErr);
    } else {
      EventAgrees(a.stream.events, a.pending, ToolExecStop(name, "", response, isErr));
    }
  }

  /** The same start and end events. */
  predicate SameTools(a: seq<Event>, b: seq<Event>) {
    StartEvents(a) == StartEvents(b) && StopEventsOf(a) == StopEventsOf(b)
  }

  predicate IsToolEvent(e: Event) {
    e.ToolExecStart? || e.ToolExecStop?
  }

  lemma OtherEvent(events: seq<Event>, e: Event)
    requires !IsToolEvent(e)
    ensures SameTools(events, events + [e])
  {
    OneMoreEvent(events, e);
  }

  lemma SealIsQuiet(s: Stream)
    requires s.open.Some?
    ensures SameTools(s.events, Sealed(s).events)
  {
    OtherEvent(s.events, BlockStop(s.open.value.index));
  }

  lemma TextIsQuiet(s: Stream, released: string)
    requires s.open.Some?
    ensures SameTools(s.events, TextOut(s, released).events)
  {
    OtherEvent(s.events, TextDelta(s.open.value.index, released));
  }

  lemma SpeakIsQuiet(s: Stream, text: string, env: Env)
    requires s.open.Some?
    ensures SameTools(s.events, Speak(s, text, env).events)
  {
    var fed := FeedText(s.open.value, text, env);
    TextIsQuiet(s.(open := Some(fed.0)), fed.1);
  }

  lemma ThinkIsQuiet(s: Stream, text: string)
    requires s.open.Some?
    ensures SameTools(s.events, Think(s, text).events)
  {
    OtherEvent(s.events, ThinkingDelta(s.open.value.index, text));
  }

  lemma ArgueIsQuiet(s: Stream, tc: ToolCall)
    requires s.open.Some?
    ensures SameTools(s.events, Argue(s, tc).events)
  {
    OtherEvent(s.events, InputDelta(s.open.value.index, tc.args));
  }

  lemma StartIsQuiet(s: Stream, typ: BlockType, streamIdx: int, id: string, name: string)
    requires s.open.None?
    ensures SameTools(s.events, Start(s, typ, streamIdx, id, name).events)
  {
    OtherEvent(s.events, BlockStart(s.sseIndex, typ, id, name));
  }

  lemma CloseIsQuiet(s: Stream, env: Env)
    ensures SameTools(s.events, CloseStream(s, env).events)
  {
    if s.open.Some? {
      var released := LastRelease(s.open.value, env);
      SealIsQuiet(TextOut(s, released));
      SealIsQuiet(s);
    }
  }

  lemma QuietAgrees(events: seq<Event>, events': seq<Event>, refs: seq<ToolRef>)
    requires RefsAgree(events, refs) && SameTools(events, events')
    ensures RefsAgree(events', refs)
  {
  }

  lemma JoinAgrees(events: seq<Event>, refs: seq<ToolRef>, r: ToolRef)
    requires RefsAgree(events, refs) && !r.started && !r.done
    ensures RefsAgree(events, refs + [r])
  {
    AddOne(refs, r);
  }

  /** A sealed tool call is added to the pending ones, neither started nor ended. */
  lemma CloseKeepsTools(a: Asm, env: Env)
    requires ToolsAgree(a)
    ensures ToolsAgree(Close(a, env))
  {
    CloseIsQuiet(a.stream, env);
    QuietAgrees(a.stream.events, CloseStream(a.stream, env).events, a.pending);
    if a.stream.open.Some? {
      var o := a.stream.open.value;
      JoinAgrees(CloseStream(a.stream, env).events, a.pending,
                 ToolRef(o.toolId, o.toolName, env.json.encode(o.args), false, false));
    }
  }

  lemma EnsureKeepsTools(a: Asm, typ: BlockType, env: Env)
    requires ToolsAgree(a)
    ensures ToolsAgree(Ensure(a, typ, env))
  {
    if !IsOpen(a.stream, typ) {
      var c := Close(a, env);
      CloseKeepsTools(a, env);
      StartIsQuiet(c.stream, typ, 0, "", "");
      QuietAgrees(c.stream.events, Start(c.stream, typ, 0, "", "").events, c.pending);
    }
  }

  lemma ReasonKeepsTools(a: Asm, reasoning: string, env: Env)
    requires ToolsAgree(a)
    ensures ToolsAgree(Reason(a, reasoning, env))
  {
    if reasoning != "" {
      var b := Ensure(a, ThinkingBlock, env);
      EnsureKeepsTools(a, ThinkingBlock, env);
      ThinkIsQuiet(b.stream, reasoning);
      QuietAgrees(b.stream.events, Think(b.stream, reasoning).events, b.pending);
    }
  }

  lemma SayKeepsTools(a: Asm, content: string, env: Env)
    requires ToolsAgree(a)
    ensures ToolsAgree(Say(a, content, env))
  {
    if content != "" {
      var b := Ensure(a, TextBlock, env);
      EnsureKeepsTools(a, TextBlock, env);
      SpeakIsQuiet(b.stream, content, env);
      QuietAgrees(b.stream.events, Speak(b.stream, content, env).events, b.pending);
    }
  }

  lemma EnsureCallKeepsTools(a: Asm, tc: ToolCall, env: Env)
    requires ToolsAgree(a)
    ensures ToolsAgree(EnsureCall(a, tc, env))
  {
    if !Continues(a.stream, tc) {
      var c := Close(a, env);
      CloseKeepsTools(a, env);
      StartIsQuiet(c.stream, ToolUseBlock, CallIndex(tc), tc.id, tc.name);
      QuietAgrees(c.stream.events, EnsureCall(a, tc, env).stream.events, c.pending);
    }
  }

  lemma CallKeepsTools(a: Asm, tc: ToolCall, env: Env)
    requires ToolsAgree(a)
    ensures ToolsAgree(CallTool(a, tc, env))
  {
    var b := EnsureCall(a, tc, env);
    EnsureCallKeepsTools(a, tc, env);
    ArgueIsQuiet(b.stream, tc);
    QuietAgrees(b.stream.events, Argue(b.stream, tc).events, b.pending);
  }

  lemma {:induction false} CallsKeepTools(a: Asm, calls: seq<ToolCall>, env: Env)
    requires ToolsAgree(a)
    ensures ToolsAgree(CallTools(a, calls, env))
    decreases |calls|
  {
    if calls != [] {
      CallKeepsTools(a, calls[0], env);
      CallsKeepTools(CallTool(a, calls[0], env), calls[1..], env);
    }
  }

  lemma StopAgrees(events: seq<Event>, refs: seq<ToolRef>, st: Stats)
    requires RefsAgree(events, refs)
    ensures RefsAgree(events + StopEvents(st), refs)
  {
    if st.failed {
      EventAgrees(events, refs, ErrorEvent(st.errType, st.errMsg));
    } else {
      var e := MessageDelta(st.lastFinish, st.inTokens, st.outTokens);
      EventAgrees(events, refs, e);
      EventAgrees(events + [e], refs, MessageStop);
      assert events + [e, MessageStop] == events + [e] + [MessageStop];
    }
  }

  lemma StopKeepsTools(a: Asm)
    requires ToolsAgree(a)
    ensures ToolsAgree(EmitStop(a))
  {
    StopAgrees(a.stream.events, a.pending, a.stats);
  }

  lemma ClosingKeepsTools(a: Asm, c: AssemblerState.Call, env: Env)
    requires EventStream.Closes(c) && ToolsAgree(a)
    ensures ToolsAgree(Apply(a, c, env))
  {
    CloseKeepsTools(a, env);
    assert Apply(a, c, env).stream == Close(a, env).stream && Apply(a, c, env).pending == Close(a, env).pending;
  }

  lemma CallAgrees(a: Asm, c: AssemblerState.Call, env: Env)
    requires ToolsAgree(a)
    ensures ToolsAgree(Apply(a, c, env))
  {
    if EventStream.Closes(c) {
      ClosingKeepsTools(a, c, env);
    } else {
      match c
      case DoStart(id, tokens) => EventAgrees(a.stream.events, a.pending, MessageStart(id, tokens));
      case DoChunk(m) =>
        ReasonKeepsTools(a, m.reasoning, env);
        SayKeepsTools(Reason(a, m.reasoning, env), m.content, env);
        CallsKeepTools(Say(Reason(a, m.reasoning, env), m.content, env), m.calls, env);
      case DoToolStart(name, args) => ToolStartAgrees(a, name, args, env);
      case DoToolEnd(name, response, isErr) => ToolEndAgreesToo(a, name, response, isErr);
      case DoStop => StopKeepsTools(a);
    }
  }

  /** For every sequence of calls: a tool call is started at most once and ended at most
      once, after it was started, and the events name it. */
  lemma {:induction false} ToolsAreMatched(calls: seq<AssemblerState.Call>, env: Env)
    ensures ToolsAgree(Run(calls, env))
    decreases |calls|
  {
    if calls != [] {
      var before, c := calls[..|calls| - 1], calls[|calls| - 1];
      ToolsAreMatched(before, env);
      CallAgrees(Run(before, env), c, env);
    }
  }
}
