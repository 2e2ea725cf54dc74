/**
 The assembler of one turn (internal/agent/assembler.go), as a value: it turns the
 signals of a run into a stream of events and, in parallel, into the content blocks
 that are stored. What it emits is compared with what a client can make of it.
 */
module AssemblerState {
  import opened Util
  import opened Text
  import opened LineFeed
  import opened GuardState
  import CiteRefs

  // ------------------------------------------------------------------------ data

  datatype BlockType = TextBlock | ThinkingBlock | ToolUseBlock

  datatype Event =
    | MessageStart(messageId: string, inputTokens: int)
    | BlockStart(index: nat, typ: BlockType, toolId: string, toolName: string)
    | TextDelta(index: nat, text: string)
    | ThinkingDelta(index: nat, text: string)
    | InputDelta(index: nat, text: string)
    | BlockStop(index: nat)
    | ToolExecStart(name: string, id: string, input: string)
    | ToolExecStop(name: string, id: string, result: string, isErr: bool)
    | MessageDelta(stopReason: string, inTokens: int, outTokens: int)
    | MessageStop
    | ErrorEvent(errType: string, errMsg: string)

  /** A stored block; the arguments of a tool call are kept as the text they were parsed from. */
  datatype Block =
    | StoredText(idx: nat, text: string)
    | StoredThinking(idx: nat, text: string)
    | StoredToolUse(idx: nat, id: string, name: string, args: string)
    | StoredToolResult(idx: nat, id: string, name: string, text: string, isErr: bool)

  datatype ToolCall = ToolCall(index: Option<int>, id: string, name: string, args: string)

  datatype Chunk = Chunk(reasoning: string, content: string, calls: seq<ToolCall>)

  datatype Usage = Usage(prompt: int, completion: int)

  datatype ToolRef = ToolRef(id: string, name: string, input: string, started: bool, done: bool)

  datatype Open = Open(index: nat, typ: BlockType, streamIdx: int, toolId: string, toolName: string,
                       text: string, args: string, guard: Guard, held: string)

  /** The JSON library: how parsed arguments are written back, and the normal form used to compare them. */
  datatype Json = Json(encode: string -> string, normal: string -> string)

  /** What is fixed for a turn. */
  datatype Env = Env(fix: Fixer, refs: CiteRefs.Refs, json: Json)

  /** What reaches the client and the store. */
  datatype Stream = Stream(sseIndex: nat, order: nat, open: Option<Open>, blocks: seq<Block>, events: seq<Event>)

  datatype Stats = Stats(inTokens: int, outTokens: int, lastFinish: string, steps: nat, jsonFixes: nat,
                         failed: bool, errType: string, errMsg: string)

  datatype Asm = Asm(stream: Stream, pending: seq<ToolRef>, stats: Stats)

  const EMPTY := Asm(Stream(0, 0, None, [], []), [], Stats(0, 0, "", 0, 0, false, "", ""))

  // ------------------------------------------------------------------ the helpers

  function Emit(s: Stream, e: Event): Stream {
    s.(events := s.events + [e])
  }

  /** Text the guard has released is recorded and emitted, never one without the other. */
  function TextOut(s: Stream, released: string): Stream
    requires s.open.Some?
  {
    if released == "" then s else
    var o := s.open.value;
    Emit(s.(open := Some(o.(text := o.text + released))), TextDelta(o.index, released))
  }

  /** What a text block still holds when it is sealed. */
  function LastRelease(o: Open, env: Env): string {
    var fed := CiteRefs.Fed(o.held, Flushed(o.guard, env.fix).out, env.refs);
    fed.1 + CiteRefs.Rewrite(fed.0, env.refs)
  }

  function Stored(o: Open, idx: nat): Block {
    match o.typ
    case TextBlock => StoredText(idx, o.text)
    case ThinkingBlock => StoredThinking(idx, o.text)
    case ToolUseBlock => StoredToolUse(idx, o.toolId, o.toolName, o.args)
  }

  function Sealed(s: Stream): Stream
    requires s.open.Some?
  {
    var o := s.open.value;
    Stream(s.sseIndex, s.order + 1, None, s.blocks + [Stored(o, s.order)], s.events + [BlockStop(o.index)])
  }

  function CloseStream(s: Stream, env: Env): Stream {
    if s.open.None? then s
    else if s.open.value.typ == TextBlock then Sealed(TextOut(s, LastRelease(s.open.value, env)))
    else Sealed(s)
  }

  /** Closing a block; a tool call becomes pending, a text block reports its fixes. */
  function Close(a: Asm, env: Env): Asm {
    if a.stream.open.None? then a else
    var o := a.stream.open.value;
    Asm(CloseStream(a.stream, env),
        if o.typ == ToolUseBlock then a.pending + [ToolRef(o.toolId, o.toolName, env.json.encode(o.args), false, false)]
        else a.pending,
        if o.typ == TextBlock then a.stats.(jsonFixes := a.stats.jsonFixes + Flushed(o.guard, env.fix).state.fixes)
        else a.stats)
  }

  function Start(s: Stream, typ: BlockType, streamIdx: int, id: string, name: string): Stream
    requires s.open.None?
  {
    var o := Open(s.sseIndex, typ, streamIdx, id, name, "", "", FRESH, "");
    Emit(s.(open := Some(o), sseIndex := s.sseIndex + 1), BlockStart(o.index, typ, id, name))
  }

  predicate IsOpen(s: Stream, typ: BlockType) {
    s.open.Some? && s.open.value.typ == typ
  }

  function Ensure(a: Asm, typ: BlockType, env: Env): (b: Asm)
    ensures IsOpen(b.stream, typ)
  {
    if IsOpen(a.stream, typ) then a else
    var c := Close(a, env);
    c.(stream := Start(c.stream, typ, 0, "", ""))
  }

  // ------------------------------------------------------------------- model chunks

  function Think(s: Stream, text: string): Stream
    requires s.open.Some?
  {
    var o := s.open.value;
    Emit(s.(open := Some(o.(text := o.text + text))), ThinkingDelta(o.index, text))
  }

  function Reason(a: Asm, text: string, env: Env): Asm {
    if text == "" then a else
    var b := Ensure(a, ThinkingBlock, env);
    b.(stream := Think(b.stream, text))
  }

  /** Content goes through the guard and then through the citation rewriter. */
  function FeedText(o: Open, text: string, env: Env): (Open, string) {
    var step := Fed(Consuming(env.fix), o.guard, text);
    var fed := CiteRefs.Fed(o.held, step.out, env.refs);
    (o.(guard := step.state, held := fed.0), fed.1)
  }

  function Speak(s: Stream, text: string, env: Env): Stream
    requires s.open.Some?
  {
    var fed := FeedText(s.open.value, text, env);
    TextOut(s.(open := Some(fed.0)), fed.1)
  }

  function Say(a: Asm, text: string, env: Env): Asm {
    if text == "" then a else
    var b := Ensure(a, TextBlock, env);
    b.(stream := Speak(b.stream, text, env))
  }

  function CallIndex(tc: ToolCall): int {
    if tc.index.Some? then tc.index.value else 0
  }

  predicate Continues(s: Stream, tc: ToolCall) {
    IsOpen(s, ToolUseBlock) && s.open.value.streamIdx == CallIndex(tc)
  }

  function Named(o: Open, tc: ToolCall): Open {
    o.(toolId := if tc.id != "" && o.toolId == "" then tc.id else o.toolId,
       toolName := if tc.name != "" && o.toolName == "" then tc.name else o.toolName)
  }

  function Argue(s: Stream, tc: ToolCall): Stream
    requires s.open.Some?
  {
    var o := Named(s.open.value, tc);
    if tc.args == "" then s.(open := Some(o))
    else Emit(s.(open := Some(o.(args := o.args + tc.args))), InputDelta(o.index, tc.args))
  }

  function EnsureCall(a: Asm, tc: ToolCall, env: Env): (b: Asm)
    ensures IsOpen(b.stream, ToolUseBlock)
  {
    if Continues(a.stream, tc) then a else
    var c := Close(a, env);
    c.(stream := Start(c.stream, ToolUseBlock, CallIndex(tc), tc.id, tc.name))
  }

  function CallTool(a: Asm, tc: ToolCall, env: Env): Asm {
    var b := EnsureCall(a, tc, env);
    b.(stream := Argue(b.stream, tc))
  }

  function CallTools(a: Asm, calls: seq<ToolCall>, env: Env): Asm
    decreases |calls|
  {
    if calls == [] then a else CallTools(CallTool(a, calls[0], env), calls[1..], env)
  }

  function ModelChunk(a: Asm, m: Chunk, env: Env): Asm {
    CallTools(Say(Reason(a, m.reasoning, env), m.content, env), m.calls, env)
  }

  // -------------------------------------------------------------------- other calls

  function Counted(st: Stats, finish: string, usage: Option<Usage>): Stats {
    var st' := if finish != "" then st.(lastFinish := finish) else st;
    if usage.None? then st'
    else st'.(inTokens := Max(st.inTokens, usage.value.prompt), outTokens := st.outTokens + usage.value.completion)
  }

  function ModelCallDone(a: Asm, finish: string, usage: Option<Usage>, env: Env): Asm {
    var b := Close(a.(stats := a.stats.(steps := a.stats.steps + 1)), env);
    b.(stats := Counted(b.stats, finish, usage))
  }

  /** The first pending call of that name, not yet started, with the same arguments. */
  function MatchPending(refs: seq<ToolRef>, name: string, norm: string, json: Json): (k: nat)
    ensures k <= |refs|
  {
    if refs == [] then 0
    else if refs[0].name == name && !refs[0].started && (norm == "" || json.normal(refs[0].input) == norm) then 0
    else 1 + MatchPending(refs[1..], name, norm, json)
  }

  function MatchByName(refs: seq<ToolRef>, name: string): (k: nat)
    ensures k <= |refs|
  {
    if refs == [] then 0
    else if refs[0].name == name && !refs[0].started then 0
    else 1 + MatchByName(refs[1..], name)
  }

  function MatchStarted(refs: seq<ToolRef>, name: string): (k: nat)
    ensures k <= |refs|
  {
    if refs == [] then 0
    else if refs[0].name == name && refs[0].started && !refs[0].done then 0
    else 1 + MatchStarted(refs[1..], name)
  }

  function PendingFor(refs: seq<ToolRef>, name: string, args: string, json: Json): (k: nat)
    ensures k <= |refs|
  {
    var k := MatchPending(refs, name, json.normal(args), json);
    if k < |refs| then k else MatchByName(refs, name)
  }

  function ToolStart(a: Asm, name: string, args: string, env: Env): Asm {
    var k := PendingFor(a.pending, name, args, env.json);
    var refs := if k < |a.pending| then a.pending else a.pending + [ToolRef("", name, args, false, false)];
    var k' := if k < |a.pending| then k else |a.pending|;
    var r := refs[k'].(started := true);
    a.(pending := refs[k' := r], stream := Emit(a.stream, ToolExecStart(r.name, r.id, r.input)))
  }

  function StoreResult(s: Stream, id: string, name: string, response: string, isErr: bool): Stream {
    Emit(s.(order := s.order + 1, blocks := s.blocks + [StoredToolResult(s.order, id, name, response, isErr)]),
         ToolExecStop(name, id, response, isErr))
  }

  function ToolEnd(a: Asm, name: string, response: string, isErr: bool): Asm {
    var k := MatchStarted(a.pending, name);
    var id := if k < |a.pending| then a.pending[k].id else "";
    a.(pending := if k < |a.pending| then a.pending[k := a.pending[k].(done := true)] else a.pending,
       stream := StoreResult(a.stream, id, name, response, isErr))
  }

  function MapFinishReason(r: string): string {
    if r == "" then ""
    else if ToLower(r) == "stop" || ToLower(r) == "end_turn" then "end_turn"
    else if ToLower(r) == "length" || ToLower(r) == "max_tokens" then "max_tokens"
    else if ToLower(r) == "tool_calls" || ToLower(r) == "tool_use" then "end_turn"
    else if ToLower(r) == "content_filter" then "stop_sequence"
    else r
  }

  function Finish(a: Asm, defaultFinish: string, env: Env): Asm {
    var b := Close(a, env);
    var reason := MapFinishReason(b.stats.lastFinish);
    b.(stats := b.stats.(lastFinish := if reason == "" then defaultFinish else reason))
  }

  function Interrupt(a: Asm, env: Env): Asm {
    var b := Close(a, env);
    b.(stats := b.stats.(failed := false, errType := "", errMsg := "", lastFinish := "interrupted"))
  }

  function Fail(a: Asm, errType: string, errMsg: string, env: Env): Asm {
    Close(a.(stats := a.stats.(failed := true, errType := errType, errMsg := errMsg)), env)
  }

  /** The terminal events of a turn. */
  function StopEvents(st: Stats): seq<Event> {
    if st.failed then [ErrorEvent(st.errType, st.errMsg)]
    else [MessageDelta(st.lastFinish, st.inTokens, st.outTokens), MessageStop]
  }

  function EmitStop(a: Asm): Asm {
    a.(stream := a.stream.(events := a.stream.events + StopEvents(a.stats)))
  }

  function StartMessage(a: Asm, id: string, inputTokens: int): Asm {
    a.(stats := a.stats.(inTokens := inputTokens), stream := Emit(a.stream, MessageStart(id, inputTokens)))
  }

  /** The stop reason that is stored with the message. */
  function StopReason(st: Stats, defaultFinish: string): string {
    var reason := MapFinishReason(st.lastFinish);
    if st.failed then "error" else if reason == "" then defaultFinish else reason
  }

  datatype Call =
    | DoStart(id: string, tokens: int)
    | DoChunk(chunk: Chunk)
    | DoCallDone(finish: string, usage: Option<Usage>)
    | DoToolStart(name: string, args: string)
    | DoToolEnd(name: string, response: string, isErr: bool)
    | DoFinish(defaultFinish: string)
    | DoInterrupt
    | DoFail(errType: string, errMsg: string)
    | DoStop

  function Apply(a: Asm, c: Call, env: Env): Asm {
    match c
    case DoStart(id, tokens) => StartMessage(a, id, tokens)
    case DoChunk(chunk) => ModelChunk(a, chunk, env)
    case DoCallDone(finish, usage) => ModelCallDone(a, finish, usage, env)
    case DoToolStart(name, args) => ToolStart(a, name, args, env)
    case DoToolEnd(name, response, isErr) => ToolEnd(a, name, response, isErr)
    case DoFinish(defaultFinish) => Finish(a, defaultFinish, env)
    case DoInterrupt => Interrupt(a, env)
    case DoFail(errType, errMsg) => Fail(a, errType, errMsg, env)
    case DoStop => EmitStop(a)
  }

  function Run(calls: seq<Call>, env: Env): Asm
    decreases |calls|
  {
    if calls == [] then EMPTY else Apply(Run(calls[..|calls| - 1], env), calls[|calls| - 1], env)
  }
}

/** What a client sees of a turn, and why it is what is stored. */
module EventStream {
  import opened Util
  import opened Text
  import opened AssemblerState

  /** A content block as the events show it. */
  datatype Shown = Shown(typ: BlockType, text: string)

  /** The blocks that are complete, and the one that is open. */
  datatype View = View(closed: seq<Shown>, open: Option<Shown>)

  /** A client's reading of the next event; None when the event breaks the framing: a block
      starts while another is open or out of order, or a delta or a stop does not carry the
      index of the open block. */
  function See(v: Option<View>, e: Event): Option<View> {
    if v.None? then None else
    var w := v.value;
    match e
    case BlockStart(i, typ, _, _) =>
      if w.open.None? && i == |w.closed| then Some(w.(open := Some(Shown(typ, "")))) else None
    case TextDelta(i, text) => Delta(w, i, TextBlock, text)
    case ThinkingDelta(i, text) => Delta(w, i, ThinkingBlock, text)
    case InputDelta(i, text) => Delta(w, i, ToolUseBlock, text)
    case BlockStop(i) =>
      if w.open.Some? && i == |w.closed| then Some(View(w.closed + [w.open.value], None)) else None
    case _ => v
  }

  function Delta(w: View, i: nat, typ: BlockType, text: string): Option<View> {
    if w.open.Some? && i == |w.closed| && w.open.value.typ == typ && text != "" then
      Some(w.(open := Some(w.open.value.(text := w.open.value.text + text))))
    else None
  }

  function Seen(events: seq<Event>): Option<View>
    decreases |events|
  {
    if events == [] then Some(View([], None)) else See(Seen(events[..|events| - 1]), events[|events| - 1])
  }

  lemma SeenAfter(events: seq<Event>, e: Event)
    ensures Seen(events + [e]) == See(Seen(events), e)
  {
    assert (events + [e])[..|events|] == events;
  }

  function ShownBlock(b: Block): seq<Shown> {
    match b
    case StoredText(_, text) => [Shown(TextBlock, text)]
    case StoredThinking(_, text) => [Shown(ThinkingBlock, text)]
    case StoredToolUse(_, _, _, args) => [Shown(ToolUseBlock, args)]
    case StoredToolResult(_, _, _, _, _) => []
  }

  /** The stored blocks a client sees as blocks: all but the tool results. */
  function Visible(blocks: seq<Block>): seq<Shown>
    decreases |blocks|
  {
    if blocks == [] then [] else Visible(blocks[..|blocks| - 1]) + ShownBlock(blocks[|blocks| - 1])
  }

  lemma VisibleAfter(blocks: seq<Block>, b: Block)
    ensures Visible(blocks + [b]) == Visible(blocks) + ShownBlock(b)
  {
    assert (blocks + [b])[..|blocks|] == blocks;
  }

  function OpenShown(s: Stream): Option<Shown> {
    if s.open.None? then None else
    var o := s.open.value;
    Some(Shown(o.typ, if o.typ == ToolUseBlock then o.args else o.text))
  }

  ghost predicate Numbered(blocks: seq<Block>, order: nat) {
    order == |blocks| && forall k :: 0 <= k < |blocks| ==> blocks[k].idx == k
  }

  /** The stream is well framed, and a client that has read it holds exactly what is stored
      so far; stored blocks are numbered in order. */
  ghost predicate Faithful(s: Stream) {
    && Seen(s.events) == Some(View(Visible(s.blocks), OpenShown(s)))
    && s.sseIndex == |Visible(s.blocks)| + (if s.open.Some? then 1 else 0)
    && (s.open.Some? ==> s.open.value.index == |Visible(s.blocks)|)
    && Numbered(s.blocks, s.order)
  }

  lemma TextOutFaithful(s: Stream, released: string)
    requires Faithful(s) && IsOpen(s, TextBlock)
    ensures Faithful(TextOut(s, released)) && IsOpen(TextOut(s, released), TextBlock)
  {
    if released != "" {
      SeenAfter(s.events, TextDelta(s.open.value.index, released));
    }
  }

  lemma SealedFaithful(s: Stream)
    requires Faithful(s) && s.open.Some?
    ensures Faithful(Sealed(s))
  {
    var o := s.open.value;
    SeenAfter(s.events, BlockStop(o.index));
    VisibleAfter(s.blocks, Stored(o, s.order));
    assert ShownBlock(Stored(o, s.order)) == [OpenShown(s).value];
  }

  lemma CloseFaithful(s: Stream, env: Env)
    requires Faithful(s)
    ensures Faithful(CloseStream(s, env)) && CloseStream(s, env).open == None
  {
    if s.open.Some? {
      if s.open.value.typ == TextBlock {
        TextOutFaithful(s, LastRelease(s.open.value, env));
        SealedFaithful(TextOut(s, LastRelease(s.open.value, env)));
      } else {
        SealedFaithful(s);
      }
    }
  }

  lemma StartFaithful(s: Stream, typ: BlockType, streamIdx: int, id: string, name: string)
    requires Faithful(s) && s.open.None?
    ensures Faithful(Start(s, typ, streamIdx, id, name))
  {
    SeenAfter(s.events, BlockStart(s.sseIndex, typ, id, name));
  }

  lemma EnsureFaithful(a: Asm, typ: BlockType, env: Env)
    requires Faithful(a.stream)
    ensures Faithful(Ensure(a, typ, env).stream)
  {
    if !IsOpen(a.stream, typ) {
      CloseFaithful(a.stream, env);
      StartFaithful(Close(a, env).stream, typ, 0, "", "");
    }
  }

  lemma ThinkFaithful(s: Stream, text: string)
    requires Faithful(s) && IsOpen(s, ThinkingBlock) && text != ""
    ensures Faithful(Think(s, text))
  {
    SeenAfter(s.events, ThinkingDelta(s.open.value.index, text));
  }

  lemma SpeakFaithful(s: Stream, text: string, env: Env)
    requires Faithful(s) && IsOpen(s, TextBlock)
    ensures Faithful(Speak(s, text, env))
  {
    var fed := FeedText(s.open.value, text, env);
    TextOutFaithful(s.(open := Some(fed.0)), fed.1);
  }

  lemma ArgueFaithful(s: Stream, tc: ToolCall)
    requires Faithful(s) && IsOpen(s, ToolUseBlock)
    ensures Faithful(Argue(s, tc))
  {
    if tc.args != "" {
      SeenAfter(s.events, InputDelta(s.open.value.index, tc.args));
    }
  }

  lemma CallToolFaithful(a: Asm, tc: ToolCall, env: Env)
    requires Faithful(a.stream)
    ensures Faithful(CallTool(a, tc, env).stream)
  {
    if !Continues(a.stream, tc) {
      CloseFaithful(a.stream, env);
      StartFaithful(Close(a, env).stream, ToolUseBlock, CallIndex(tc), tc.id, tc.name);
    }
    ArgueFaithful(EnsureCall(a, tc, env).stream, tc);
  }

  lemma {:induction false} CallToolsFaithful(a: Asm, calls: seq<ToolCall>, env: Env)
    requires Faithful(a.stream)
    ensures Faithful(CallTools(a, calls, env).stream)
    decreases |calls|
  {
    if calls != [] {
      CallToolFaithful(a, calls[0], env);
      CallToolsFaithful(CallTool(a, calls[0], env), calls[1..], env);
    }
  }

  lemma ModelChunkFaithful(a: Asm, m: Chunk, env: Env)
    requires Faithful(a.stream)
    ensures Faithful(ModelChunk(a, m, env).stream)
  {
    var b := Reason(a, m.reasoning, env);
    if m.reasoning != "" {
      EnsureFaithful(a, ThinkingBlock, env);
      ThinkFaithful(Ensure(a, ThinkingBlock, env).stream, m.reasoning);
    }
    var c := Say(b, m.content, env);
    if m.content != "" {
      EnsureFaithful(b, TextBlock, env);
      SpeakFaithful(Ensure(b, TextBlock, env).stream, m.content, env);
    }
    CallToolsFaithful(c, m.calls, env);
  }

  /** An event that frames no block. */
  predicate FramesNothing(e: Event) {
    e.MessageStart? || e.ToolExecStart? || e.ToolExecStop? || e.MessageDelta? || e.MessageStop? || e.ErrorEvent?
  }

  lemma NothingNewSeen(events: seq<Event>, e: Event)
    requires FramesNothing(e)
    ensures Seen(events + [e]) == Seen(events)
  {
    SeenAfter(events, e);
  }

  lemma OtherEventFaithful(s: Stream, e: Event)
    requires Faithful(s) && FramesNothing(e)
    ensures Faithful(Emit(s, e))
  {
    NothingNewSeen(s.events, e);
  }

  lemma StoreResultFaithful(s: Stream, id: string, name: string, response: string, isErr: bool)
    requires Faithful(s)
    ensures Faithful(StoreResult(s, id, name, response, isErr))
  {
    VisibleAfter(s.blocks, StoredToolResult(s.order, id, name, response, isErr));
    assert Visible(s.blocks) + [] == Visible(s.blocks);
    SeenAfter(s.events, ToolExecStop(name, id, response, isErr));
  }

  lemma StopFaithful(s: Stream, st: Stats)
    requires Faithful(s)
    ensures Faithful(s.(events := s.events + StopEvents(st)))
  {
    if st.failed {
      OtherEventFaithful(s, ErrorEvent(st.errType, st.errMsg));
    } else {
      var e, f := MessageDelta(st.lastFinish, st.inTokens, st.outTokens), MessageStop;
      OtherEventFaithful(s, e);
      OtherEventFaithful(Emit(s, e), f);
      assert s.events + [e, f] == s.events + [e] + [f];
    }
  }

  predicate Closes(c: Call) {
    c.DoFinish? || c.DoInterrupt? || c.DoFail? || c.DoCallDone?
  }

  lemma ClosingCalls(a: Asm, c: Call, env: Env)
    requires Closes(c)
    ensures Apply(a, c, env).stream == CloseStream(a.stream, env)
  {
  }

  lemma ApplyFaithful(a: Asm, c: Call, env: Env)
    requires Faithful(a.stream)
    ensures Faithful(Apply(a, c, env).stream)
    ensures Closes(c) ==> Apply(a, c, env).stream.open == None
  {
    if Closes(c) {
      CloseFaithful(a.stream, env);
      ClosingCalls(a, c, env);
    } else {
      match c
      case DoStart(id, tokens) => OtherEventFaithful(a.stream, MessageStart(id, tokens));
      case DoChunk(m) => ModelChunkFaithful(a, m, env);
      case DoToolStart(name, args) =>
        var b := ToolStart(a, name, args, env);
        OtherEventFaithful(a.stream, b.stream.events[|a.stream.events|]);
      case DoToolEnd(name, response, isErr) =>
        var k := MatchStarted(a.pending, name);
        StoreResultFaithful(a.stream, if k < |a.pending| then a.pending[k].id else "", name, response, isErr);
      case DoStop => StopFaithful(a.stream, a.stats);
    }
  }

  /** For every sequence of calls the event stream is well framed and shows exactly what is
      stored. */
  lemma {:induction false} StreamIsFaithful(calls: seq<Call>, env: Env)
    ensures Faithful(Run(calls, env).stream)
    decreases |calls|
  {
    if calls != [] {
      StreamIsFaithful(calls[..|calls| - 1], env);
      ApplyFaithful(Run(calls[..|calls| - 1], env), calls[|calls| - 1], env);
    }
  }

  /** Once a model call or the turn has ended, no block is open: the client has seen all
      that is stored. */
  lemma EndedTurnsAreComplete(calls: seq<Call>, env: Env)
    requires calls != []
    requires Closes(calls[|calls| - 1])
    ensures var s := Run(calls, env).stream;
            Seen(s.events) == Some(View(Visible(s.blocks), None))
  {
    var before := calls[..|calls| - 1];
    StreamIsFaithful(before, env);
    ApplyFaithful(Run(before, env), calls[|calls| - 1], env);
  }

  // ------------------------------------------------------------------ stop reasons

  lemma {:induction false} LowerText(s: string)
    requires forall k :: 0 <= k < |s| ==> s[k] < 'A' || 'Z' < s[k] < '\U{0100}'
    ensures ToLower(s) == s
  {
    if s != "" {
      LowerText(s[1..]);
    }
  }

  lemma OtherLength(r: string, w: string)
    requires |r| != |w|
    ensures r != w
  {
  }

  /** A word without capitals whose length is that of no finish reason is left alone. */
  lemma OtherWord(r: string)
    requires ToLower(r) == r && (|r| == 11 || |r| == 13)
    ensures MapFinishReason(r) == r
  {
    OtherLength(r, "stop");
    OtherLength(r, "end_turn");
    OtherLength(r, "length");
    OtherLength(r, "max_tokens");
    OtherLength(r, "tool_calls");
    OtherLength(r, "tool_use");
    OtherLength(r, "content_filter");
  }

  lemma EndTurnStays()
    ensures MapFinishReason("end_turn") == "end_turn"
  {
    LowerText("end_turn");
  }

  lemma MaxTokensStays()
    ensures MapFinishReason("max_tokens") == "max_tokens"
  {
    LowerText("max_tokens");
    var r := "max_tokens";
    assert |r| == 10 && r != "";
  }

  lemma StopSequenceStays()
    ensures MapFinishReason("stop_sequence") == "stop_sequence"
  {
    LowerText("stop_sequence");
    OtherWord("stop_sequence");
  }

  lemma InterruptedStays()
    ensures MapFinishReason("interrupted") == "interrupted"
  {
    LowerText("interrupted");
    OtherWord("interrupted");
  }

  lemma MappedTwice(r: string)
    ensures MapFinishReason(MapFinishReason(r)) == MapFinishReason(r)
  {
    var m := MapFinishReason(r);
    if m == "end_turn" {
      EndTurnStays();
    } else if m == "max_tokens" {
      MaxTokensStays();
    } else if m == "stop_sequence" {
      StopSequenceStays();
    }
  }

  /** The events that end a turn tell a client the stop reason `reason`. */
  predicate Tells(st: Stats, reason: string) {
    StopEvents(st) == if st.failed then [ErrorEvent(st.errType, st.errMsg)]
                      else [MessageDelta(reason, st.inTokens, st.outTokens), MessageStop]
  }

  /** The stop reason a client is told when a turn has ended is the one stored with it. */
  lemma FinishTellsWhatIsStored(a: Asm, defaultFinish: string, env: Env)
    requires defaultFinish != "" && MapFinishReason(defaultFinish) == defaultFinish
    ensures var st := Finish(a, defaultFinish, env).stats; Tells(st, StopReason(st, defaultFinish))
  {
    var r := Close(a, env).stats.lastFinish;
    MappedTwice(r);
  }

  /** A stopped turn is never told as a failure, whatever the cancelled model call reported. */
  lemma InterruptTellsWhatIsStored(a: Asm, defaultFinish: string, env: Env)
    ensures var st := Interrupt(a, env).stats;
            !st.failed && StopReason(st, defaultFinish) == "interrupted" && Tells(st, "interrupted")
  {
    InterruptedStays();
  }

  lemma FailTellsWhatIsStored(a: Asm, errType: string, errMsg: string, defaultFinish: string, env: Env)
    ensures var st := Fail(a, errType, errMsg, env).stats;
            StopReason(st, defaultFinish) == "error" && StopEvents(st) == [ErrorEvent(errType, errMsg)]
  {
  }
}
