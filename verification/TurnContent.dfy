/**
 What a turn stores, from what the model wrote and the tools returned
 (internal/agent/assembler.go): the order and kinds of the blocks, the reasoning, the tool
 calls put together from their parts, the results, and the outcome of the turn.
 */
module TurnContent {
  import opened Util
  import opened Text
  import opened Sequences
  import opened AssemblerState

  // ------------------------------------------------------------------ what was written

  /** A part of what the model wrote. */
  datatype Item = Thought(text: string) | Said(text: string) | Asked(call: ToolCall)

  /** What becomes a block: parts the model wrote one after the other, or a tool's result. */
  datatype Entry = Written(parts: seq<Item>) | Returned(name: string, response: string, isErr: bool)

  /** The entries that are complete, and the parts of the one that is not. */
  datatype Script = Script(done: seq<Entry>, open: seq<Item>)

  /** Parts of one block: of one kind, and of one call. */
  predicate Alike(x: Item, y: Item) {
    match x
    case Thought(_) => y.Thought?
    case Said(_) => y.Said?
    case Asked(c) =>
      y.Asked? && (if c.index.Some? then c.index.value else 0) == (if y.call.index.Some? then y.call.index.value else 0)
  }

  function Completed(t: Script): Script {
    if t.open == [] then t else Script(t.done + [Written(t.open)], [])
  }

  function With(t: Script, x: Item): Script {
    if t.open != [] && Alike(t.open[0], x) then Script(t.done, t.open + [x]) else Script(Completed(t).done, [x])
  }

  function WithCalls(t: Script, calls: seq<ToolCall>): Script
    decreases |calls|
  {
    if calls == [] then t else WithCalls(With(t, Asked(calls[0])), calls[1..])
  }

  /** A chunk holds reasoning, content and calls, in this order. */
  function WithChunk(t: Script, m: Chunk): Script {
    var u := if m.reasoning != "" then With(t, Thought(m.reasoning)) else t;
    var v := if m.content != "" then With(u, Said(m.content)) else u;
    WithCalls(v, m.calls)
  }

  /** What a call to the assembler adds. */
  function Adding(t: Script, c: Call): Script {
    match c
    case DoChunk(m) => WithChunk(t, m)
    case DoCallDone(_, _) => Completed(t)
    case DoFinish(_) => Completed(t)
    case DoInterrupt => Completed(t)
    case DoFail(_, _) => Completed(t)
    case DoToolEnd(name, response, isErr) => t.(done := t.done + [Returned(name, response, isErr)])
    case _ => t
  }

  function ScriptOf(calls: seq<Call>): Script
    decreases |calls|
  {
    if calls == [] then Script([], []) else Adding(ScriptOf(calls[..|calls| - 1]), calls[|calls| - 1])
  }

  // ----------------------------------------------------------------- what it comes to

  function TextOfPart(x: Item): string {
    match x
    case Thought(text) => text
    case Said(text) => text
    case Asked(c) => c.args
  }

  /** The texts of the parts, or the arguments of the call, one after the other. */
  function Wording(parts: seq<Item>): string
    decreases |parts|
  {
    if parts == [] then "" else Wording(parts[..|parts| - 1]) + TextOfPart(parts[|parts| - 1])
  }

  /** The first id, and the first name, that a part of the call gives. */
  function FirstId(parts: seq<Item>): string
    decreases |parts|
  {
    if parts == [] then "" else
    var id := FirstId(parts[..|parts| - 1]);
    var x := parts[|parts| - 1];
    if id == "" && x.Asked? then x.call.id else id
  }

  function FirstName(parts: seq<Item>): string
    decreases |parts|
  {
    if parts == [] then "" else
    var name := FirstName(parts[..|parts| - 1]);
    var x := parts[|parts| - 1];
    if name == "" && x.Asked? then x.call.name else name
  }

  /** A stored block is the entry; the wording of a text is what guard and rewriter make of it. */
  predicate Keeps(b: Block, e: Entry) {
    match e
    case Returned(name, response, isErr) =>
      b.StoredToolResult? && b.name == name && b.text == response && b.isErr == isErr
    case Written(parts) =>
      parts != [] &&
      match parts[0]
      case Thought(_) => b.StoredThinking? && b.text == Wording(parts)
      case Said(_) => b.StoredText?
      case Asked(_) =>
        b.StoredToolUse? && b.id == FirstId(parts) && b.name == FirstName(parts) && b.args == Wording(parts)
  }

  predicate Holding(o: Open, parts: seq<Item>) {
    parts != [] &&
    match parts[0]
    case Thought(_) => o.typ == ThinkingBlock && o.text == Wording(parts)
    case Said(_) => o.typ == TextBlock
    case Asked(c) =>
      && o.typ == ToolUseBlock && o.streamIdx == CallIndex(c)
      && o.toolId == FirstId(parts) && o.toolName == FirstName(parts) && o.args == Wording(parts)
  }

  /** The stored blocks are the entries, in order. */
  ghost predicate KeepsAll(s: Stream, t: Script) {
    && |s.blocks| == |t.done| && (forall k :: 0 <= k < |s.blocks| ==> Keeps(s.blocks[k], t.done[k]))
    && (if s.open.Some? then Holding(s.open.value, t.open) else t.open == [])
  }

  lemma LastPart(parts: seq<Item>, x: Item)
    ensures Wording(parts + [x]) == Wording(parts) + TextOfPart(x)
    ensures FirstId(parts + [x]) == if FirstId(parts) == "" && x.Asked? then x.call.id else FirstId(parts)
    ensures FirstName(parts + [x]) == if FirstName(parts) == "" && x.Asked? then x.call.name else FirstName(parts)
  {
    assert (parts + [x])[..|parts|] == parts;
  }

  lemma OnePart(x: Item)
    ensures Wording([x]) == TextOfPart(x) && FirstId([x]) == (if x.Asked? then x.call.id else "")
    ensures FirstName([x]) == if x.Asked? then x.call.name else ""
  {
    LastPart([], x);
    assert [] + [x] == [x];
  }

  lemma CloseKeeps(s: Stream, t: Script, env: Env)
    requires KeepsAll(s, t)
    ensures KeepsAll(CloseStream(s, env), Completed(t)) && CloseStream(s, env).open.None?
  {
  }

  lemma StartKeeps(s: Stream, t: Script, typ: BlockType, streamIdx: int, id: string, name: string)
    requires KeepsAll(s, t) && s.open.None?
    ensures var s' := Start(s, typ, streamIdx, id, name);
            s'.blocks == s.blocks && s'.open.Some? && s'.open.value.typ == typ && s'.open.value.streamIdx == streamIdx
            && s'.open.value.toolId == id && s'.open.value.toolName == name
            && s'.open.value.text == "" && s'.open.value.args == ""
  {
  }

  lemma ReasonKeeps(a: Asm, text: string, t: Script, env: Env)
    requires KeepsAll(a.stream, t) && text != ""
    ensures KeepsAll(Reason(a, text, env).stream, With(t, Thought(text)))
  {
    OnePart(Thought(text));
    if IsOpen(a.stream, ThinkingBlock) {
      LastPart(t.open, Thought(text));
    } else {
      CloseKeeps(a.stream, t, env);
      StartKeeps(CloseStream(a.stream, env), Completed(t), ThinkingBlock, 0, "", "");
      assert "" + text == text;
    }
  }

  lemma SayKeeps(a: Asm, text: string, t: Script, env: Env)
    requires KeepsAll(a.stream, t) && text != ""
    ensures KeepsAll(Say(a, text, env).stream, With(t, Said(text)))
  {
    if !IsOpen(a.stream, TextBlock) {
      CloseKeeps(a.stream, t, env);
      StartKeeps(CloseStream(a.stream, env), Completed(t), TextBlock, 0, "", "");
    }
  }

  lemma ArgueKeeps(s: Stream, tc: ToolCall, parts: seq<Item>)
    requires s.open.Some? && Holding(s.open.value, parts) && parts[0].Asked?
    ensures var s' := Argue(s, tc);
            s'.blocks == s.blocks && s'.open.Some? && Holding(s'.open.value, parts + [Asked(tc)])
  {
    LastPart(parts, Asked(tc));
    var o := s.open.value;
    assert tc.args == "" ==> o.args + tc.args == o.args;
    assert (parts + [Asked(tc)])[0] == parts[0];
  }

  lemma FirstArgueKeeps(s: Stream, tc: ToolCall)
    requires s.open.Some? && s.open.value.typ == ToolUseBlock && s.open.value.streamIdx == CallIndex(tc)
    requires s.open.value.toolId == tc.id && s.open.value.toolName == tc.name && s.open.value.args == ""
    ensures var s' := Argue(s, tc);
            s'.blocks == s.blocks && s'.open.Some? && Holding(s'.open.value, [Asked(tc)])
  {
    OnePart(Asked(tc));
    assert "" + tc.args == tc.args;
  }

  lemma CallKeeps(a: Asm, tc: ToolCall, t: Script, env: Env)
    requires KeepsAll(a.stream, t)
    ensures KeepsAll(CallTool(a, tc, env).stream, With(t, Asked(tc)))
  {
    if Continues(a.stream, tc) {
      ArgueKeeps(a.stream, tc, t.open);
    } else {
      CloseKeeps(a.stream, t, env);
      StartKeeps(CloseStream(a.stream, env), Completed(t), ToolUseBlock, CallIndex(tc), tc.id, tc.name);
      FirstArgueKeeps(EnsureCall(a, tc, env).stream, tc);
    }
  }

  lemma {:induction false} CallsKeep(a: Asm, calls: seq<ToolCall>, t: Script, env: Env)
    requires KeepsAll(a.stream, t)
    ensures KeepsAll(CallTools(a, calls, env).stream, WithCalls(t, calls))
    decreases |calls|
  {
    if calls != [] {
      CallKeeps(a, calls[0], t, env);
      CallsKeep(CallTool(a, calls[0], env), calls[1..], With(t, Asked(calls[0])), env);
    }
  }

  lemma ChunkKeeps(a: Asm, m: Chunk, t: Script, env: Env)
    requires KeepsAll(a.stream, t)
    ensures KeepsAll(ModelChunk(a, m, env).stream, WithChunk(t, m))
  {
    var u := if m.reasoning != "" then With(t, Thought(m.reasoning)) else t;
    var b := Reason(a, m.reasoning, env);
    if m.reasoning != "" {
      ReasonKeeps(a, m.reasoning, t, env);
    }
    if m.content != "" {
      SayKeeps(b, m.content, u, env);
    }
    CallsKeep(Say(b, m.content, env), m.calls, if m.content != "" then With(u, Said(m.content)) else u, env);
  }

  lemma ToolEndKeeps(a: Asm, name: string, response: string, isErr: bool, t: Script)
    requires KeepsAll(a.stream, t)
    ensures KeepsAll(ToolEnd(a, name, response, isErr).stream, t.(done := t.done + [Returned(name, response, isErr)]))
  {
  }

  lemma AddingKeeps(a: Asm, c: Call, t: Script, env: Env)
    requires KeepsAll(a.stream, t)
    ensures KeepsAll(Apply(a, c, env).stream, Adding(t, c))
  {
    match c
    case DoChunk(m) => ChunkKeeps(a, m, t, env);
    case DoToolEnd(name, response, isErr) => ToolEndKeeps(a, name, response, isErr, t);
    case _ => CloseKeeps(a.stream, t, env);
  }

  /** For every sequence of calls the stored blocks are what was written and returned, in
      order: reasoning, texts, tool calls put together from their parts, and results. */
  lemma {:induction false} BlocksAreWritten(calls: seq<Call>, env: Env)
    ensures KeepsAll(Run(calls, env).stream, ScriptOf(calls))
    decreases |calls|
  {
    if calls != [] {
      BlocksAreWritten(calls[..|calls| - 1], env);
      AddingKeeps(Run(calls[..|calls| - 1], env), calls[|calls| - 1], ScriptOf(calls[..|calls| - 1]), env);
    }
  }

  // ---------------------------------------------------------------- what the client is told

  /** How a block is announced. */
  datatype Begin = Begin(typ: BlockType, id: string, name: string)

  /** A result, as it is told and stored. */
  datatype ToolResult = ToolResult(id: string, name: string, text: string, isErr: bool)

  function BeginOf(e: Event): seq<Begin> {
    if e.BlockStart? then [Begin(e.typ, e.toolId, e.toolName)] else []
  }

  function Begun(events: seq<Event>): seq<Begin>
    decreases |events|
  {
    if events == [] then [] else Begun(events[..|events| - 1]) + BeginOf(events[|events| - 1])
  }

  function ResultOf(e: Event): seq<ToolResult> {
    if e.ToolExecStop? then [ToolResult(e.id, e.name, e.result, e.isErr)] else []
  }

  function ResultsTold(events: seq<Event>): seq<ToolResult>
    decreases |events|
  {
    if events == [] then [] else ResultsTold(events[..|events| - 1]) + ResultOf(events[|events| - 1])
  }

  function ResultIn(b: Block): seq<ToolResult> {
    if b.StoredToolResult? then [ToolResult(b.id, b.name, b.text, b.isErr)] else []
  }

  function ResultsStored(blocks: seq<Block>): seq<ToolResult>
    decreases |blocks|
  {
    if blocks == [] then [] else ResultsStored(blocks[..|blocks| - 1]) + ResultIn(blocks[|blocks| - 1])
  }

  /** A block is announced with the id and the name that its first part gives. */
  function BeginOfParts(parts: seq<Item>): seq<Begin> {
    if parts == [] then [] else
    match parts[0]
    case Thought(_) => [Begin(ThinkingBlock, "", "")]
    case Said(_) => [Begin(TextBlock, "", "")]
    case Asked(c) => [Begin(ToolUseBlock, c.id, c.name)]
  }

  function BegunEntries(entries: seq<Entry>): seq<Begin>
    decreases |entries|
  {
    if entries == [] then [] else
    var e := entries[|entries| - 1];
    BegunEntries(entries[..|entries| - 1]) + if e.Written? then BeginOfParts(e.parts) else []
  }

  function BegunBy(t: Script): seq<Begin> {
    BegunEntries(t.done) + BeginOfParts(t.open)
  }

  /** Every block is announced once, in order; every result that is stored is told, in order. */
  ghost predicate TellsAll(s: Stream, t: Script) {
    Begun(s.events) == BegunBy(t) && ResultsTold(s.events) == ResultsStored(s.blocks)
  }

  lemma OneMoreEvent(events: seq<Event>, e: Event)
    ensures Begun(events + [e]) == Begun(events) + BeginOf(e)
    ensures ResultsTold(events + [e]) == ResultsTold(events) + ResultOf(e)
  {
    Snoc(events, e);
  }

  lemma OneMoreBlock(blocks: seq<Block>, b: Block)
    ensures ResultsStored(blocks + [b]) == ResultsStored(blocks) + ResultIn(b)
  {
    Snoc(blocks, b);
  }

  lemma OneMoreEntry(entries: seq<Entry>, e: Entry)
    ensures BegunEntries(entries + [e]) == BegunEntries(entries) + if e.Written? then BeginOfParts(e.parts) else []
  {
    Snoc(entries, e);
  }

  lemma CompletedBegins(t: Script)
    ensures BegunBy(Completed(t)) == BegunBy(t) && Completed(t).open == []
  {
    if t.open != [] {
      OneMoreEntry(t.done, Written(t.open));
      Nothing(BegunEntries(t.done) + BeginOfParts(t.open));
    }
  }

  lemma WithBegins(t: Script, x: Item)
    ensures BegunBy(With(t, x)) ==
            if t.open != [] && Alike(t.open[0], x) then BegunBy(t) else BegunBy(t) + BeginOfParts([x])
  {
    CompletedBegins(t);
    Nothing(BegunEntries(Completed(t).done));
    assert t.open != [] ==> (t.open + [x])[0] == t.open[0];
  }

  /** Nothing is announced, and no result told or stored. */
  ghost predicate Quiet(s: Stream, s': Stream) {
    && Begun(s'.events) == Begun(s.events) && ResultsTold(s'.events) == ResultsTold(s.events)
    && ResultsStored(s'.blocks) == ResultsStored(s.blocks)
  }

  lemma EmitIsQuiet(s: Stream, e: Event)
    requires !e.BlockStart? && !e.ToolExecStop?
    ensures Quiet(s, Emit(s, e))
  {
    OneMoreEvent(s.events, e);
    Nothing(Begun(s.events));
    Nothing(ResultsTold(s.events));
  }

  lemma TextIsQuiet(s: Stream, released: string)
    requires s.open.Some?
    ensures Quiet(s, TextOut(s, released))
  {
    if released != "" {
      EmitIsQuiet(s, TextDelta(s.open.value.index, released));
    }
  }

  lemma SealIsQuiet(s: Stream)
    requires s.open.Some?
    ensures Quiet(s, Sealed(s))
  {
    EmitIsQuiet(s, BlockStop(s.open.value.index));
    OneMoreBlock(s.blocks, Stored(s.open.value, s.order));
    Nothing(ResultsStored(s.blocks));
  }

  lemma CloseIsQuiet(s: Stream, env: Env)
    ensures Quiet(s, CloseStream(s, env)) && CloseStream(s, env).open.None?
  {
    if IsOpen(s, TextBlock) {
      var s' := TextOut(s, LastRelease(s.open.value, env));
      TextIsQuiet(s, LastRelease(s.open.value, env));
      SealIsQuiet(s');
      assert CloseStream(s, env) == Sealed(s');
    } else if s.open.Some? {
      SealIsQuiet(s);
    }
  }

  lemma StartTells(s: Stream, typ: BlockType, streamIdx: int, id: string, name: string)
    requires s.open.None?
    ensures var s' := Start(s, typ, streamIdx, id, name);
            && Begun(s'.events) == Begun(s.events) + [Begin(typ, id, name)]
            && ResultsTold(s'.events) == ResultsTold(s.events) && s'.blocks == s.blocks
  {
    OneMoreEvent(s.events, BlockStart(s.sseIndex, typ, id, name));
    Nothing(ResultsTold(s.events));
  }

  lemma ReasonTells(a: Asm, text: string, t: Script, env: Env)
    requires KeepsAll(a.stream, t) && TellsAll(a.stream, t) && text != ""
    ensures TellsAll(Reason(a, text, env).stream, With(t, Thought(text)))
  {
    WithBegins(t, Thought(text));
    if !IsOpen(a.stream, ThinkingBlock) {
      CloseIsQuiet(a.stream, env);
      StartTells(CloseStream(a.stream, env), ThinkingBlock, 0, "", "");
    }
    var b := Ensure(a, ThinkingBlock, env);
    EmitIsQuiet(b.stream, ThinkingDelta(b.stream.open.value.index, text));
  }

  lemma SayTells(a: Asm, text: string, t: Script, env: Env)
    requires KeepsAll(a.stream, t) && TellsAll(a.stream, t) && text != ""
    ensures TellsAll(Say(a, text, env).stream, With(t, Said(text)))
  {
    WithBegins(t, Said(text));
    if !IsOpen(a.stream, TextBlock) {
      CloseIsQuiet(a.stream, env);
      StartTells(CloseStream(a.stream, env), TextBlock, 0, "", "");
    }
    var b := Ensure(a, TextBlock, env);
    var fed := FeedText(b.stream.open.value, text, env);
    TextIsQuiet(b.stream.(open := Some(fed.0)), fed.1);
  }

  lemma ArgueIsQuiet(s: Stream, tc: ToolCall)
    requires s.open.Some?
    ensures Quiet(s, Argue(s, tc))
  {
    if tc.args != "" {
      EmitIsQuiet(s, InputDelta(s.open.value.index, tc.args));
    }
  }

  /** What is told before the arguments: nothing, or a block with the id and name of the part. */
  lemma EnsureCallTells(a: Asm, tc: ToolCall, env: Env)
    ensures var s, s' := a.stream, EnsureCall(a, tc, env).stream;
            && Begun(s'.events) ==
               (if Continues(s, tc) then Begun(s.events) else Begun(s.events) + [Begin(ToolUseBlock, tc.id, tc.name)])
            && ResultsTold(s'.events) == ResultsTold(s.events) && ResultsStored(s'.blocks) == ResultsStored(s.blocks)
  {
    if !Continues(a.stream, tc) {
      CloseIsQuiet(a.stream, env);
      StartTells(CloseStream(a.stream, env), ToolUseBlock, CallIndex(tc), tc.id, tc.name);
    }
  }

  lemma ContinuesAlike(s: Stream, tc: ToolCall, t: Script)
    requires KeepsAll(s, t)
    ensures Continues(s, tc) <==> t.open != [] && Alike(t.open[0], Asked(tc))
  {
  }

  lemma QuietTells(s: Stream, s': Stream, t: Script)
    requires Quiet(s, s') && TellsAll(s, t)
    ensures TellsAll(s', t)
  {
  }

  lemma EnsureCallBegins(a: Asm, tc: ToolCall, t: Script, env: Env)
    requires KeepsAll(a.stream, t) && TellsAll(a.stream, t)
    ensures TellsAll(EnsureCall(a, tc, env).stream, With(t, Asked(tc)))
  {
    assert BegunBy(With(t, Asked(tc))) ==
           (if Continues(a.stream, tc) then BegunBy(t) else BegunBy(t) + [Begin(ToolUseBlock, tc.id, tc.name)]) by {
      WithBegins(t, Asked(tc));
      ContinuesAlike(a.stream, tc, t);
    }
    EnsureCallTells(a, tc, env);
  }

  lemma CallTells(a: Asm, tc: ToolCall, t: Script, env: Env)
    requires KeepsAll(a.stream, t) && TellsAll(a.stream, t)
    ensures TellsAll(CallTool(a, tc, env).stream, With(t, Asked(tc)))
  {
    var s := EnsureCall(a, tc, env).stream;
    EnsureCallBegins(a, tc, t, env);
    ArgueIsQuiet(s, tc);
    QuietTells(s, Argue(s, tc), With(t, Asked(tc)));
  }

  lemma {:induction false} CallsTell(a: Asm, calls: seq<ToolCall>, t: Script, env: Env)
    requires KeepsAll(a.stream, t) && TellsAll(a.stream, t)
    ensures TellsAll(CallTools(a, calls, env).stream, WithCalls(t, calls))
    decreases |calls|
  {
    if calls != [] {
      CallKeeps(a, calls[0], t, env);
      CallTells(a, calls[0], t, env);
      CallsTell(CallTool(a, calls[0], env), calls[1..], With(t, Asked(calls[0])), env);
    }
  }

  lemma ChunkTells(a: Asm, m: Chunk, t: Script, env: Env)
    requires KeepsAll(a.stream, t) && TellsAll(a.stream, t)
    ensures TellsAll(ModelChunk(a, m, env).stream, WithChunk(t, m))
  {
    var u := if m.reasoning != "" then With(t, Thought(m.reasoning)) else t;
    var v := if m.content != "" then With(u, Said(m.content)) else u;
    var b := Reason(a, m.reasoning, env);
    if m.reasoning != "" {
      ReasonKeeps(a, m.reasoning, t, env);
      ReasonTells(a, m.reasoning, t, env);
    }
    if m.content != "" {
      SayKeeps(b, m.content, u, env);
      SayTells(b, m.content, u, env);
    }
    CallsTell(Say(b, m.content, env), m.calls, v, env);
  }

  lemma ResultTells(a: Asm, name: string, response: string, isErr: bool, t: Script)
    requires TellsAll(a.stream, t)
    ensures TellsAll(ToolEnd(a, name, response, isErr).stream, t.(done := t.done + [Returned(name, response, isErr)]))
  {
    var s' := ToolEnd(a, name, response, isErr).stream;
    OneMoreEvent(a.stream.events, s'.events[|a.stream.events|]);
    OneMoreBlock(a.stream.blocks, s'.blocks[|a.stream.blocks|]);
    OneMoreEntry(t.done, Returned(name, response, isErr));
    Nothing(BegunEntries(t.done));
    Nothing(Begun(a.stream.events));
  }

  lemma StopIsQuiet(s: Stream, st: Stats)
    ensures Quiet(s, s.(events := s.events + StopEvents(st)))
  {
    if st.failed {
      EmitIsQuiet(s, ErrorEvent(st.errType, st.errMsg));
    } else {
      var e, f := MessageDelta(st.lastFinish, st.inTokens, st.outTokens), MessageStop;
      EmitIsQuiet(s, e);
      EmitIsQuiet(Emit(s, e), f);
      assert s.events + [e, f] == s.events + [e] + [f];
    }
  }

  lemma AddingTells(a: Asm, c: Call, t: Script, env: Env)
    requires KeepsAll(a.stream, t) && TellsAll(a.stream, t)
    ensures TellsAll(Apply(a, c, env).stream, Adding(t, c))
  {
    match c
    case DoChunk(m) => ChunkTells(a, m, t, env);
    case DoToolEnd(name, response, isErr) => ResultTells(a, name, response, isErr, t);
    case DoStart(id, tokens) => EmitIsQuiet(a.stream, MessageStart(id, tokens));
    case DoToolStart(name, args) =>
      EmitIsQuiet(a.stream, ToolStart(a, name, args, env).stream.events[|a.stream.events|]);
    case DoStop => StopIsQuiet(a.stream, a.stats);
    case _ =>
      CloseIsQuiet(a.stream, env);
      CompletedBegins(t);
  }

  /** For every sequence of calls the client is told of every block once and in order, under
      the id and name its first part gives, and of every stored result as it is stored. */
  lemma {:induction false} BlocksAreTold(calls: seq<Call>, env: Env)
    ensures TellsAll(Run(calls, env).stream, ScriptOf(calls))
    decreases |calls|
  {
    if calls != [] {
      var before := calls[..|calls| - 1];
      BlocksAreWritten(before, env);
      BlocksAreTold(before, env);
      AddingTells(Run(before, env), calls[|calls| - 1], ScriptOf(before), env);
    }
  }

  // ------------------------------------------------------------------- calls and results

  /** A tool call as a start looks for it. */
  datatype Key = Key(id: string, name: string, input: string)

  function Keys(refs: seq<ToolRef>): seq<Key> {
    seq(|refs|, k requires 0 <= k < |refs| => Key(refs[k].id, refs[k].name, refs[k].input))
  }

  function KeyOf(b: Block, json: Json): seq<Key> {
    if b.StoredToolUse? then [Key(b.id, b.name, json.encode(b.args))] else []
  }

  /** The stored tool calls, in order. */
  function CallKeys(blocks: seq<Block>, json: Json): seq<Key>
    decreases |blocks|
  {
    if blocks == [] then [] else CallKeys(blocks[..|blocks| - 1], json) + KeyOf(blocks[|blocks| - 1], json)
  }

  /** The first sequence is the second one with elements left out. */
  predicate Among(xs: seq<Key>, ys: seq<Key>)
    decreases |ys|
  {
    || xs == []
    || (ys != [] && xs[|xs| - 1] == ys[|ys| - 1] && Among(xs[..|xs| - 1], ys[..|ys| - 1]))
    || (ys != [] && Among(xs, ys[..|ys| - 1]))
  }

  lemma AmongBoth(xs: seq<Key>, ys: seq<Key>, y: Key)
    requires Among(xs, ys)
    ensures Among(xs + [y], ys + [y]) && Among(xs, ys + [y])
  {
    Snoc(xs, y);
    Snoc(ys, y);
  }

  /** A call that a tool's start stood in for. */
  predicate MadeUp(x: Key, calls: seq<Call>) {
    x.id == "" && exists k :: 0 <= k < |calls| && calls[k] == DoToolStart(x.name, x.input)
  }

  /** Every stored call is waiting or has been taken, in order, and everything else that is
      was made up for a start without a call. */
  ghost predicate Waiting(blocks: seq<Block>, refs: seq<ToolRef>, calls: seq<Call>, json: Json) {
    && Among(CallKeys(blocks, json), Keys(refs))
    && forall k :: 0 <= k < |refs| ==> Keys(refs)[k] in CallKeys(blocks, json) || MadeUp(Keys(refs)[k], calls)
  }

  ghost predicate CallsWait(a: Asm, calls: seq<Call>, json: Json) {
    Waiting(a.stream.blocks, a.pending, calls, json)
  }

  lemma CallKeysAfter(blocks: seq<Block>, b: Block, json: Json)
    ensures CallKeys(blocks + [b], json) == CallKeys(blocks, json) + KeyOf(b, json)
  {
    Snoc(blocks, b);
  }

  lemma KeysAfter(refs: seq<ToolRef>, r: ToolRef)
    ensures Keys(refs + [r]) == Keys(refs) + [Key(r.id, r.name, r.input)]
  {
  }

  lemma OtherBlockWaits(blocks: seq<Block>, refs: seq<ToolRef>, b: Block, calls: seq<Call>, json: Json)
    requires Waiting(blocks, refs, calls, json) && !b.StoredToolUse?
    ensures Waiting(blocks + [b], refs, calls, json)
  {
    CallKeysAfter(blocks, b, json);
    Nothing(CallKeys(blocks, json));
  }

  lemma CallBlockWaits(blocks: seq<Block>, refs: seq<ToolRef>, b: Block, r: ToolRef, calls: seq<Call>, json: Json)
    requires Waiting(blocks, refs, calls, json) && KeyOf(b, json) == [Key(r.id, r.name, r.input)]
    ensures Waiting(blocks + [b], refs + [r], calls, json)
  {
    CallKeysAfter(blocks, b, json);
    KeysAfter(refs, r);
    AmongBoth(CallKeys(blocks, json), Keys(refs), Key(r.id, r.name, r.input));
  }

  lemma CloseStores(s: Stream, env: Env)
    requires s.open.Some?
    ensures var o := s.open.value; var text := CloseStream(s, env).blocks;
            if o.typ == TextBlock then |text| == |s.blocks| + 1 && text == s.blocks + [text[|s.blocks|]]
                                       && text[|s.blocks|].StoredText?
            else text == s.blocks + [Stored(o, s.order)]
  {
  }

  lemma CloseWaits(a: Asm, calls: seq<Call>, env: Env)
    requires CallsWait(a, calls, env.json)
    ensures CallsWait(Close(a, env), calls, env.json)
  {
    if a.stream.open.Some? {
      var o := a.stream.open.value;
      CloseStores(a.stream, env);
      if o.typ == ToolUseBlock {
        CallBlockWaits(a.stream.blocks, a.pending, Stored(o, a.stream.order),
                       ToolRef(o.toolId, o.toolName, env.json.encode(o.args), false, false), calls, env.json);
      } else {
        OtherBlockWaits(a.stream.blocks, a.pending, CloseStream(a.stream, env).blocks[|a.stream.blocks|], calls,
                        env.json);
      }
    }
  }

  lemma SameWaits(a: Asm, b: Asm, calls: seq<Call>, json: Json)
    requires CallsWait(a, calls, json) && b.stream.blocks == a.stream.blocks && b.pending == a.pending
    ensures CallsWait(b, calls, json)
  {
  }

  lemma ReasonWaits(a: Asm, text: string, calls: seq<Call>, env: Env)
    requires CallsWait(a, calls, env.json)
    ensures CallsWait(Reason(a, text, env), calls, env.json)
  {
    CloseWaits(a, calls, env);
    if text != "" {
      var b := if IsOpen(a.stream, ThinkingBlock) then a else Close(a, env);
      SameWaits(b, Reason(a, text, env), calls, env.json);
    }
  }

  lemma SayWaits(a: Asm, text: string, calls: seq<Call>, env: Env)
    requires CallsWait(a, calls, env.json)
    ensures CallsWait(Say(a, text, env), calls, env.json)
  {
    CloseWaits(a, calls, env);
    if text != "" {
      var b := if IsOpen(a.stream, TextBlock) then a else Close(a, env);
      SameWaits(b, Say(a, text, env), calls, env.json);
    }
  }

  lemma {:induction false} CallsWaitAfter(a: Asm, more: seq<ToolCall>, calls: seq<Call>, env: Env)
    requires CallsWait(a, calls, env.json)
    ensures CallsWait(CallTools(a, more, env), calls, env.json)
    decreases |more|
  {
    if more != [] {
      CloseWaits(a, calls, env);
      var b := if Continues(a.stream, more[0]) then a else Close(a, env);
      SameWaits(b, CallTool(a, more[0], env), calls, env.json);
      CallsWaitAfter(CallTool(a, more[0], env), more[1..], calls, env);
    }
  }

  lemma ToolStartWaits(a: Asm, name: string, args: string, calls: seq<Call>, env: Env)
    requires CallsWait(a, calls, env.json)
    ensures CallsWait(ToolStart(a, name, args, env), calls + [DoToolStart(name, args)], env.json)
  {
    var more := calls + [DoToolStart(name, args)];
    assert more[|calls|] == DoToolStart(name, args);
    assert forall x :: MadeUp(x, calls) ==> MadeUp(x, more) by {
      assert forall k :: 0 <= k < |calls| ==> more[k] == calls[k];
    }
    var k := PendingFor(a.pending, name, args, env.json);
    var b := ToolStart(a, name, args, env);
    if k < |a.pending| {
      assert Keys(b.pending) == Keys(a.pending);
    } else {
      var r := ToolRef("", name, args, true, false);
      assert b.pending == a.pending + [r];
      KeysAfter(a.pending, r);
      AmongBoth(CallKeys(a.stream.blocks, env.json), Keys(a.pending), Key("", name, args));
    }
  }

  lemma ToolEndWaits(a: Asm, name: string, response: string, isErr: bool, calls: seq<Call>, json: Json)
    requires CallsWait(a, calls, json)
    ensures CallsWait(ToolEnd(a, name, response, isErr), calls, json)
  {
    var b := ToolEnd(a, name, response, isErr);
    OtherBlockWaits(a.stream.blocks, a.pending, b.stream.blocks[|a.stream.blocks|], calls, json);
    assert Keys(b.pending) == Keys(a.pending);
  }

  lemma MoreCallsWait(a: Asm, calls: seq<Call>, c: Call, json: Json)
    requires CallsWait(a, calls, json)
    ensures CallsWait(a, calls + [c], json)
  {
    assert forall k :: 0 <= k < |calls| ==> (calls + [c])[k] == calls[k];
  }

  lemma ChunkWaits(a: Asm, m: Chunk, calls: seq<Call>, env: Env)
    requires CallsWait(a, calls, env.json)
    ensures CallsWait(ModelChunk(a, m, env), calls, env.json)
  {
    var b := Reason(a, m.reasoning, env);
    ReasonWaits(a, m.reasoning, calls, env);
    SayWaits(b, m.content, calls, env);
    CallsWaitAfter(Say(b, m.content, env), m.calls, calls, env);
  }

  lemma ApplyWaits(a: Asm, c: Call, calls: seq<Call>, env: Env)
    requires CallsWait(a, calls, env.json)
    ensures CallsWait(Apply(a, c, env), calls + [c], env.json)
  {
    MoreCallsWait(a, calls, c, env.json);
    var more := calls + [c];
    match c
    case DoToolStart(name, args) => ToolStartWaits(a, name, args, calls, env);
    case DoChunk(m) => ChunkWaits(a, m, more, env);
    case DoToolEnd(name, response, isErr) => ToolEndWaits(a, name, response, isErr, more, env.json);
    case DoStart(_, _) => SameWaits(a, Apply(a, c, env), more, env.json);
    case DoStop => SameWaits(a, Apply(a, c, env), more, env.json);
    case _ =>
      CloseWaits(a, more, env);
      SameWaits(Close(a, env), Apply(a, c, env), more, env.json);
  }

  /** Every stored tool call can be taken by a start, under its own id, name and arguments. */
  lemma {:induction false} StoredCallsWait(calls: seq<Call>, env: Env)
    ensures CallsWait(Run(calls, env), calls, env.json)
    decreases |calls|
  {
    if calls != [] {
      var before, c := calls[..|calls| - 1], calls[|calls| - 1];
      StoredCallsWait(before, env);
      ApplyWaits(Run(before, env), c, before, env);
      InitLast(calls);
    }
  }

  predicate Waits(r: ToolRef, name: string) {
    r.name == name && !r.started
  }

  /** Its arguments are those of the start, up to how they are written. */
  predicate SameInput(r: ToolRef, args: string, json: Json) {
    json.normal(args) == "" || json.normal(r.input) == json.normal(args)
  }

  predicate FirstOf(refs: seq<ToolRef>, k: nat, p: ToolRef -> bool) {
    && k <= |refs| && (k < |refs| ==> p(refs[k])) && forall j :: 0 <= j < k ==> !p(refs[j])
  }

  lemma FirstBehind(refs: seq<ToolRef>, k: nat, p: ToolRef -> bool)
    requires refs != [] && !p(refs[0]) && FirstOf(refs[1..], k, p)
    ensures FirstOf(refs, k + 1, p)
  {
    assert forall j :: 0 < j < |refs| ==> refs[j] == refs[1..][j - 1];
  }

  lemma {:induction false} FirstByInput(refs: seq<ToolRef>, name: string, args: string, json: Json)
    ensures FirstOf(refs, MatchPending(refs, name, json.normal(args), json),
                    r => Waits(r, name) && SameInput(r, args, json))
  {
    var p := r => Waits(r, name) && SameInput(r, args, json);
    if refs != [] && !p(refs[0]) {
      FirstByInput(refs[1..], name, args, json);
      FirstBehind(refs, MatchPending(refs[1..], name, json.normal(args), json), p);
    }
  }

  lemma {:induction false} FirstByName(refs: seq<ToolRef>, name: string)
    ensures FirstOf(refs, MatchByName(refs, name), r => Waits(r, name))
  {
    var p := r => Waits(r, name);
    if refs != [] && !p(refs[0]) {
      FirstByName(refs[1..], name);
      FirstBehind(refs, MatchByName(refs[1..], name), p);
    }
  }

  /** A start takes the first waiting call of its name with its arguments; where there is none,
      the first waiting call of its name. */
  lemma StartTakesFirst(refs: seq<ToolRef>, name: string, args: string, json: Json)
    ensures var k := PendingFor(refs, name, args, json);
            if exists j :: 0 <= j < |refs| && Waits(refs[j], name) && SameInput(refs[j], args, json)
            then k < |refs| && FirstOf(refs, k, r => Waits(r, name) && SameInput(r, args, json))
            else FirstOf(refs, k, r => Waits(r, name))
  {
    FirstByInput(refs, name, args, json);
    FirstByName(refs, name);
  }

  /** An end takes the first call of its name that has started and not ended. */
  lemma {:induction false} EndTakesFirst(refs: seq<ToolRef>, name: string)
    ensures FirstOf(refs, MatchStarted(refs, name), (r: ToolRef) => r.name == name && r.started && !r.done)
  {
    var p := (r: ToolRef) => r.name == name && r.started && !r.done;
    if refs != [] && !p(refs[0]) {
      EndTakesFirst(refs[1..], name);
      FirstBehind(refs, MatchStarted(refs[1..], name), p);
    }
  }

  // ----------------------------------------------------------------- the turn's outcome

  /** What a chunk has no part in. */
  predicate SameOutcome(a: Asm, b: Asm) {
    a.stats.failed == b.stats.failed && a.stats.inTokens == b.stats.inTokens
  }

  lemma CloseKeepsOutcome(a: Asm, env: Env)
    ensures SameOutcome(a, Close(a, env))
  {
  }

  lemma {:induction false} CallToolsKeepOutcome(a: Asm, calls: seq<ToolCall>, env: Env)
    ensures SameOutcome(a, CallTools(a, calls, env))
    decreases |calls|
  {
    if calls != [] {
      CloseKeepsOutcome(a, env);
      CallToolsKeepOutcome(CallTool(a, calls[0], env), calls[1..], env);
    }
  }

  lemma ChunkKeepsOutcome(a: Asm, m: Chunk, env: Env)
    ensures SameOutcome(a, ModelChunk(a, m, env))
  {
    var b := Reason(a, m.reasoning, env);
    CloseKeepsOutcome(a, env);
    CloseKeepsOutcome(b, env);
    CallToolsKeepOutcome(Say(b, m.content, env), m.calls, env);
  }

  lemma CloseAndFail(a: Asm, errType: string, errMsg: string, env: Env)
    ensures var st := Fail(a, errType, errMsg, env).stats; st.failed && st.inTokens == a.stats.inTokens
  {
    CloseKeepsOutcome(a.(stats := a.stats.(failed := true, errType := errType, errMsg := errMsg)), env);
  }

  /** What a call does to the failure of a turn. */
  lemma FailureAfter(a: Asm, c: Call, env: Env)
    ensures Apply(a, c, env).stats.failed ==
            if c.DoFail? then true else if c.DoInterrupt? then false else a.stats.failed
  {
    match c
    case DoChunk(m) => ChunkKeepsOutcome(a, m, env);
    case DoFail(errType, errMsg) => CloseAndFail(a, errType, errMsg, env);
    case DoFinish(_) => CloseKeepsOutcome(a, env);
    case DoCallDone(_, _) => CloseKeepsOutcome(a.(stats := a.stats.(steps := a.stats.steps + 1)), env);
    case _ =>
  }

  function Prompt(c: Call): Option<int> {
    if c.DoCallDone? && c.usage.Some? then Some(c.usage.value.prompt) else None
  }

  /** What it does to the input tokens. */
  lemma InputAfter(a: Asm, c: Call, env: Env)
    ensures Apply(a, c, env).stats.inTokens ==
            if c.DoStart? then c.tokens else if Prompt(c).Some? then Max(a.stats.inTokens, Prompt(c).value)
            else a.stats.inTokens
  {
    match c
    case DoChunk(m) => ChunkKeepsOutcome(a, m, env);
    case DoFail(errType, errMsg) => CloseAndFail(a, errType, errMsg, env);
    case DoFinish(_) => CloseKeepsOutcome(a, env);
    case DoInterrupt => CloseKeepsOutcome(a, env);
    case DoCallDone(_, _) => CloseKeepsOutcome(a.(stats := a.stats.(steps := a.stats.steps + 1)), env);
    case _ =>
  }

  /** A turn has failed when it was reported as failed and not interrupted afterwards. */
  lemma {:induction false} FailureIsTheLast(calls: seq<Call>, env: Env)
    ensures Run(calls, env).stats.failed <==>
            exists k :: 0 <= k < |calls| && calls[k].DoFail? && forall j :: k < j < |calls| ==> !calls[j].DoInterrupt?
    decreases |calls|
  {
    if calls != [] {
      var before, c := calls[..|calls| - 1], calls[|calls| - 1];
      FailureIsTheLast(before, env);
      FailureAfter(Run(before, env), c, env);
      assert forall k :: 0 <= k < |before| ==> before[k] == calls[k];
      if c.DoFail? {
        assert calls[|calls| - 1].DoFail?;
      } else if Run(before, env).stats.failed && !c.DoInterrupt? {
        var k :| 0 <= k < |before| && before[k].DoFail? && forall j :: k < j < |before| ==> !before[j].DoInterrupt?;
        assert calls[k].DoFail?;
      }
    }
  }

  /** The most that a turn began with or a model call reported. */
  ghost predicate IsGreatest(n: int, tokens: int, after: seq<Call>) {
    && n >= tokens && (forall k :: 0 <= k < |after| && Prompt(after[k]).Some? ==> n >= Prompt(after[k]).value)
    && (n == tokens || exists k :: 0 <= k < |after| && Prompt(after[k]) == Some(n))
  }

  lemma GreatestAfter(n: int, tokens: int, after: seq<Call>, c: Call)
    requires IsGreatest(n, tokens, after)
    ensures IsGreatest(if Prompt(c).Some? then Max(n, Prompt(c).value) else n, tokens, after + [c])
  {
    assert (after + [c])[|after|] == c;
    assert forall k :: 0 <= k < |after| ==> (after + [c])[k] == after[k];
  }

  /** The input tokens of a turn are the most that it began with or a model call reported. */
  lemma {:induction false} InputIsTheGreatest(before: seq<Call>, id: string, tokens: int, after: seq<Call>, env: Env)
    requires forall k :: 0 <= k < |after| ==> !after[k].DoStart?
    ensures IsGreatest(Run(before + [DoStart(id, tokens)] + after, env).stats.inTokens, tokens, after)
    decreases |after|
  {
    var begun := before + [DoStart(id, tokens)];
    if after == [] {
      Nothing(begun);
      Snoc(before, DoStart(id, tokens));
    } else {
      var init, c := after[..|after| - 1], after[|after| - 1];
      InputIsTheGreatest(before, id, tokens, init, env);
      InitLast(after);
      Rejoin(begun, init, [c]);
      Snoc(begun + init, c);
      InputAfter(Run(begun + init, env), c, env);
      GreatestAfter(Run(begun + init, env).stats.inTokens, tokens, init, c);
    }
  }

  /** The reasons for which a model stops, in any case, as they are told and stored. */
  lemma FinishReasons(r: string)
    ensures ToLower(r) == "stop" || ToLower(r) == "end_turn" || ToLower(r) == "tool_calls" || ToLower(r) == "tool_use"
            ==> MapFinishReason(r) == "end_turn"
    ensures ToLower(r) == "length" || ToLower(r) == "max_tokens" ==> MapFinishReason(r) == "max_tokens"
    ensures ToLower(r) == "content_filter" ==> MapFinishReason(r) == "stop_sequence"
    ensures ToLower(r) !in ["stop", "end_turn", "tool_calls", "tool_use", "length", "max_tokens", "content_filter"]
            ==> MapFinishReason(r) == r
  {
  }
}
