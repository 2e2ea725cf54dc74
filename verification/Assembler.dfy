/**
 The assembler as the object the run's callbacks change in place
 (internal/agent/assembler.go). Every method is tied to the function of AssemblerState
 that says what it does to the state.
 */
module Assembler {
  import opened Util
  import opened GuardState
  import opened TextGuard
  import opened AssemblerState
  import opened BlockOrder
  import CiteRefs
  import JsonRepair
  import LineFeed

  class OpenBlock {
    const index: nat
    const typ: BlockType
    const streamIdx: int
    var toolId: string
    var toolName: string
    var text: string
    var args: string
    const guard: StreamGuard?       // text blocks only
    const cite: CiteRefs.Rewriter?  // text blocks only, after the guard

    ghost const Repr: set<object>

    ghost predicate Valid()
      reads this, Repr
    {
      && this in Repr
      && (typ == TextBlock <==> guard != null)
      && (typ == TextBlock <==> cite != null)
      && (guard != null ==> guard in Repr && guard.Valid())
      && (cite != null ==> cite in Repr && cite.Valid())
    }

    ghost function State(): Open
      reads this, Repr
      requires Valid()
    {
      Open(index, typ, streamIdx, toolId, toolName, text, args,
           if guard != null then guard.State() else FRESH, if cite != null then cite.held else "")
    }

    constructor Plain(index: nat, typ: BlockType, streamIdx: int, toolId: string, toolName: string)
      requires typ != TextBlock
      ensures Valid() && fresh(Repr)
      ensures State() == Open(index, typ, streamIdx, toolId, toolName, "", "", FRESH, "")
    {
      this.index, this.typ, this.streamIdx, this.toolId, this.toolName := index, typ, streamIdx, toolId, toolName;
      text, args, guard, cite := "", "", null, null;
      Repr := {this};
    }

    constructor OfText(index: nat, eval: JsonRepair.Evaluator, refs: CiteRefs.Refs)
      ensures Valid() && fresh(Repr) && typ == TextBlock
      ensures guard.eval == eval && cite.refs == refs
      ensures State() == Open(index, TextBlock, 0, "", "", "", "", FRESH, "")
    {
      var g := new StreamGuard(eval);
      var c := new CiteRefs.Rewriter(refs);
      this.index, typ, streamIdx, toolId, toolName := index, TextBlock, 0, "", "";
      text, args, guard, cite := "", "", g, c;
      Repr := {this, g, c};
    }

    /** A content chunk through both stages. */
    method Feed(content: string, ghost env: Env) returns (released: string)
      requires Valid() && typ == TextBlock
      requires RepairWith(guard.eval) == env.fix && cite.refs == env.refs
      modifies guard, cite
      ensures Valid()
      ensures (State(), released) == FeedText(old(State()), content, env)
    {
      var safe := guard.Feed(content);
      released := cite.Feed(safe);
    }

    /** What both stages still hold. */
    method Drain(ghost env: Env) returns (released: string)
      requires Valid() && typ == TextBlock
      requires RepairWith(guard.eval) == env.fix && cite.refs == env.refs
      modifies guard, cite
      ensures Valid() && released == LastRelease(old(State()), env)
      ensures guard.fixes == Flushed(old(State().guard), env.fix).state.fixes
      ensures State() == old(State()).(guard := guard.State(), held := cite.held)
    {
      var safe := guard.Flush();
      released := cite.Feed(safe);
      var rest := cite.Flush();
      released := released + rest;
    }
  }

  class Recorder {
    const eval: JsonRepair.Evaluator
    const refs: CiteRefs.Refs
    const json: Json

    var sseIndex: nat  // next index of a block the client sees
    var order: nat     // next order of a stored block
    var open: OpenBlock?
    var blocks: seq<Block>
    var pendingTools: seq<ToolRef>
    var events: seq<Event>  // what the sink has received
    var stats: Stats

    ghost function TheEnv(): Env {
      Env(RepairWith(eval), refs, json)
    }

    ghost predicate Valid()
      reads this, open, if open != null then open.Repr else {}
    {
      open != null ==>
        && this !in open.Repr && open.Valid()
        && (open.guard != null ==> open.guard.eval == eval)
        && (open.cite != null ==> open.cite.refs == refs)
    }

    ghost function Footprint(): set<object>
      reads this
    {
      {this} + if open != null then open.Repr else {}
    }

    ghost function Now(): Stream
      reads this, open, if open != null then open.Repr else {}
      requires Valid()
    {
      Stream(sseIndex, order, if open != null then Some(open.State()) else None, blocks, events)
    }

    ghost function State(): Asm
      reads this, open, if open != null then open.Repr else {}
      requires Valid()
    {
      Asm(Now(), pendingTools, stats)
    }

    constructor (eval: JsonRepair.Evaluator, refs: CiteRefs.Refs, json: Json)
      ensures Valid() && fresh(Footprint()) && State() == EMPTY
      ensures this.eval == eval && this.refs == refs && this.json == json
    {
      this.eval, this.refs, this.json := eval, refs, json;
      sseIndex, order, open, blocks, pendingTools, events := 0, 0, null, [], [], [];
      stats := EMPTY.stats;
    }

    /** Records and emits text the guard has released for the open text block. */
    method Write(released: string)
      requires Valid() && open != null
      modifies this`events, open`text
      ensures Valid() && State() == old(State()).(stream := TextOut(old(Now()), released))
    {
      if released != "" {
        open.text := open.text + released;
        events := events + [TextDelta(open.index, released)];
      }
    }

    /** Seals the open block, whatever its type. */
    method Seal()
      requires Valid() && open != null
      modifies this
      ensures Valid() && open == null && Now() == Sealed(old(Now()))
      ensures stats == old(stats)
      ensures pendingTools == old(pendingTools) +
              (if old(open.typ) == ToolUseBlock then
                  [ToolRef(old(open.toolId), old(open.toolName), json.encode(old(open.args)), false, false)] else [])
    {
      var ob := open;
      open := null;
      match ob.typ {
        case TextBlock => blocks := blocks + [StoredText(order, ob.text)];
        case ThinkingBlock => blocks := blocks + [StoredThinking(order, ob.text)];
        case ToolUseBlock =>
          blocks := blocks + [StoredToolUse(order, ob.toolId, ob.toolName, ob.args)];
          pendingTools := pendingTools + [ToolRef(ob.toolId, ob.toolName, json.encode(ob.args), false, false)];
      }
      order := order + 1;
      events := events + [BlockStop(ob.index)];
    }

    /** Releases what the stages of a text block still hold, and counts its fixes. */
    method DrainText()
      requires Valid() && open != null && open.typ == TextBlock
      modifies this`events, this`stats, open`text, open.guard, open.cite
      ensures Valid() && pendingTools == old(pendingTools)
      ensures stats == old(stats).(jsonFixes := old(stats).jsonFixes +
              Flushed(old(open.State()).guard, TheEnv().fix).state.fixes)
      ensures Sealed(Now()) == Sealed(TextOut(old(Now()), LastRelease(old(open.State()), TheEnv())))
    {
      var released := open.Drain(TheEnv());
      Write(released);
      stats := stats.(jsonFixes := stats.jsonFixes + open.guard.fixes);
    }

    method CloseBlock()
      requires Valid()
      modifies Footprint()
      ensures Valid() && open == null
      ensures State() == Close(old(State()), TheEnv())
    {
      if open != null {
        if open.typ == TextBlock {
          DrainText();
        }
        Seal();
      }
    }

    /** A new block of any type but text. */
    method OpenPlain(typ: BlockType, streamIdx: int, id: string, name: string)
      requires Valid() && open == null && typ != TextBlock
      modifies this`open, this`sseIndex, this`events
      ensures Valid() && open != null && fresh(open) && fresh(open.Repr) && open.typ == typ
      ensures State() == old(State()).(stream := Start(old(Now()), typ, streamIdx, id, name))
    {
      open := new OpenBlock.Plain(sseIndex, typ, streamIdx, id, name);
      sseIndex := sseIndex + 1;
      events := events + [BlockStart(open.index, typ, id, name)];
    }

    /** A new text block, with stages of its own. */
    method OpenText()
      requires Valid() && open == null
      modifies this`open, this`sseIndex, this`events
      ensures Valid() && open != null && fresh(open) && fresh(open.Repr) && open.typ == TextBlock
      ensures State() == old(State()).(stream := Start(old(Now()), TextBlock, 0, "", ""))
    {
      open := new OpenBlock.OfText(sseIndex, eval, refs);
      sseIndex := sseIndex + 1;
      events := events + [BlockStart(open.index, TextBlock, "", "")];
    }

    method EnsureOpen(typ: BlockType)
      requires Valid() && typ != ToolUseBlock
      modifies Footprint()
      ensures Valid() && fresh(Footprint() - old(Footprint())) && open != null && open.typ == typ
      ensures State() == Ensure(old(State()), typ, TheEnv())
    {
      if open != null && open.typ == typ {
        return;
      }
      CloseBlock();
      if typ == TextBlock {
        OpenText();
      } else {
        OpenPlain(typ, 0, "", "");
      }
    }

    method OnReasoning(text: string)
      requires Valid()
      modifies Footprint()
      ensures Valid() && fresh(Footprint() - old(Footprint()))
      ensures State() == Reason(old(State()), text, TheEnv())
    {
      if text != "" {
        EnsureOpen(ThinkingBlock);
        open.text := open.text + text;
        events := events + [ThinkingDelta(open.index, text)];
      }
    }

    method OnContent(text: string)
      requires Valid()
      modifies Footprint()
      ensures Valid() && fresh(Footprint() - old(Footprint()))
      ensures State() == Say(old(State()), text, TheEnv())
    {
      if text != "" {
        EnsureOpen(TextBlock);
        SpeakText(text);
      }
    }

    /** Content of the open text block goes through its stages. */
    method SpeakText(text: string)
      requires Valid() && open != null && open.typ == TextBlock
      modifies this`events, open, open.guard, open.cite
      ensures Valid() && Footprint() == old(Footprint())
      ensures State() == old(State()).(stream := Speak(old(Now()), text, TheEnv()))
    {
      var released := open.Feed(text, TheEnv());
      Write(released);
    }

    /** A block for this tool call: the open one when the call continues it. */
    method EnsureCallOpen(tc: ToolCall)
      requires Valid()
      modifies Footprint()
      ensures Valid() && fresh(Footprint() - old(Footprint())) && open != null && open.typ == ToolUseBlock
      ensures State() == EnsureCall(old(State()), tc, TheEnv())
    {
      var idx := if tc.index.Some? then tc.index.value else 0;
      if open == null || open.typ != ToolUseBlock || open.streamIdx != idx {
        CloseBlock();
        OpenPlain(ToolUseBlock, idx, tc.id, tc.name);
      }
    }

    method WriteCall(tc: ToolCall)
      requires Valid() && open != null && open.typ == ToolUseBlock
      modifies this`events, open`toolId, open`toolName, open`args
      ensures Valid() && State() == old(State()).(stream := Argue(old(Now()), tc))
    {
      if tc.id != "" && open.toolId == "" {
        open.toolId := tc.id;
      }
      if tc.name != "" && open.toolName == "" {
        open.toolName := tc.name;
      }
      if tc.args != "" {
        open.args := open.args + tc.args;
        events := events + [InputDelta(open.index, tc.args)];
      }
    }

    method OnToolCall(tc: ToolCall)
      requires Valid()
      modifies Footprint()
      ensures Valid() && fresh(Footprint() - old(Footprint()))
      ensures State() == CallTool(old(State()), tc, TheEnv())
    {
      EnsureCallOpen(tc);
      WriteCall(tc);
    }

    /** One streamed chunk of a model call. */
    method OnModelChunk(m: Chunk)
      requires Valid()
      modifies Footprint()
      ensures Valid() && fresh(Footprint() - old(Footprint()))
      ensures State() == ModelChunk(old(State()), m, TheEnv())
    {
      OnWords(m.reasoning, m.content);
      OnToolCalls(m.calls);
    }

    method OnWords(reasoning: string, content: string)
      requires Valid()
      modifies Footprint()
      ensures Valid() && fresh(Footprint() - old(Footprint()))
      ensures State() == Say(Reason(old(State()), reasoning, TheEnv()), content, TheEnv())
    {
      OnReasoning(reasoning);
      OnContent(content);
    }

    method OnToolCalls(calls: seq<ToolCall>)
      requires Valid()
      modifies Footprint()
      ensures Valid() && fresh(Footprint() - old(Footprint()))
      ensures State() == CallTools(old(State()), calls, TheEnv())
    {
      var i := 0;
      while i < |calls|
        invariant 0 <= i <= |calls| && Valid() && fresh(Footprint() - old(Footprint()))
        invariant CallTools(State(), calls[i..], TheEnv()) == CallTools(old(State()), calls, TheEnv())
      {
        assert calls[i..][0] == calls[i] && calls[i..][1..] == calls[i + 1..];
        OnToolCall(calls[i]);
        i := i + 1;
      }
    }

    method OnModelCallDone(finish: string, usage: Option<Usage>)
      requires Valid()
      modifies Footprint()
      ensures Valid() && open == null
      ensures State() == ModelCallDone(old(State()), finish, usage, TheEnv())
    {
      CountStep();
      CloseBlock();
      CountCall(finish, usage);
    }

    method CountStep()
      requires Valid()
      modifies this`stats
      ensures Valid() && State() == old(State()).(stats := old(stats).(steps := old(stats).steps + 1))
    {
      stats := stats.(steps := stats.steps + 1);
    }

    method CountCall(finish: string, usage: Option<Usage>)
      requires Valid()
      modifies this`stats
      ensures Valid() && State() == old(State()).(stats := Counted(old(stats), finish, usage))
    {
      if finish != "" {
        stats := stats.(lastFinish := finish);
      }
      if usage.Some? {
        if usage.value.prompt > stats.inTokens {
          stats := stats.(inTokens := usage.value.prompt);
        }
        stats := stats.(outTokens := stats.outTokens + usage.value.completion);
      }
    }

    /** The call a tool start belongs to; the number of pending calls when there is none. */
    method FindPending(name: string, args: string) returns (k: nat)
      ensures k == PendingFor(pendingTools, name, args, json)
    {
      var norm := json.normal(args);
      k := 0;
      while k < |pendingTools|
        invariant 0 <= k <= |pendingTools|
        invariant MatchPending(pendingTools, name, norm, json) == k + MatchPending(pendingTools[k..], name, norm, json)
      {
        var r := pendingTools[k];
        if r.name == name && !r.started && (norm == "" || json.normal(r.input) == norm) {
          return;
        }
        assert pendingTools[k..][1..] == pendingTools[k + 1..];
        k := k + 1;
      }
      k := 0;
      while k < |pendingTools|
        invariant 0 <= k <= |pendingTools|
        invariant MatchByName(pendingTools, name) == k + MatchByName(pendingTools[k..], name)
      {
        if pendingTools[k].name == name && !pendingTools[k].started {
          return;
        }
        assert pendingTools[k..][1..] == pendingTools[k + 1..];
        k := k + 1;
      }
    }

    method FindStarted(name: string) returns (k: nat)
      ensures k == MatchStarted(pendingTools, name)
    {
      k := 0;
      while k < |pendingTools|
        invariant 0 <= k <= |pendingTools|
        invariant MatchStarted(pendingTools, name) == k + MatchStarted(pendingTools[k..], name)
      {
        if pendingTools[k].name == name && pendingTools[k].started && !pendingTools[k].done {
          return;
        }
        assert pendingTools[k..][1..] == pendingTools[k + 1..];
        k := k + 1;
      }
    }

    method OnToolStart(name: string, args: string)
      requires Valid()
      modifies this`pendingTools, this`events
      ensures Valid() && State() == ToolStart(old(State()), name, args, TheEnv())
    {
      var k := FindPending(name, args);
      if k == |pendingTools| {
        pendingTools := pendingTools + [ToolRef("", name, args, false, false)];
      }
      var r := pendingTools[k].(started := true);
      pendingTools := pendingTools[k := r];
      events := events + [ToolExecStart(r.name, r.id, r.input)];
    }

    method OnToolEnd(name: string, response: string, isErr: bool)
      requires Valid()
      modifies this`pendingTools, this`blocks, this`order, this`events
      ensures Valid() && State() == ToolEnd(old(State()), name, response, isErr)
    {
      var k := FindStarted(name);
      var id := "";
      if k < |pendingTools| {
        id := pendingTools[k].id;
        pendingTools := pendingTools[k := pendingTools[k].(done := true)];
      }
      blocks := blocks + [StoredToolResult(order, id, name, response, isErr)];
      order := order + 1;
      events := events + [ToolExecStop(name, id, response, isErr)];
    }

    method OnFinish(defaultFinish: string)
      requires Valid()
      modifies Footprint()
      ensures Valid() && open == null && State() == Finish(old(State()), defaultFinish, TheEnv())
    {
      CloseBlock();
      var reason := MapFinishReason(stats.lastFinish);
      if reason == "" {
        reason := defaultFinish;
      }
      stats := stats.(lastFinish := reason);
    }

    method OnInterrupt()
      requires Valid()
      modifies Footprint()
      ensures Valid() && open == null && State() == Interrupt(old(State()), TheEnv())
    {
      CloseBlock();
      stats := stats.(failed := false, errType := "", errMsg := "");
      stats := stats.(lastFinish := "interrupted");
    }

    method OnFail(errType: string, errMsg: string)
      requires Valid()
      modifies Footprint()
      ensures Valid() && open == null && State() == Fail(old(State()), errType, errMsg, TheEnv())
    {
      stats := stats.(failed := true, errType := errType, errMsg := errMsg);
      CloseBlock();
    }

    method OnStop()
      requires Valid()
      modifies this`events
      ensures Valid() && State() == EmitStop(old(State()))
    {
      if stats.failed {
        events := events + [ErrorEvent(stats.errType, stats.errMsg)];
        return;
      }
      events := events + [MessageDelta(stats.lastFinish, stats.inTokens, stats.outTokens)];
      events := events + [MessageStop];
    }

    method OnMessageStart(id: string, inputTokens: int)
      requires Valid()
      modifies this`stats, this`events
      ensures Valid() && State() == StartMessage(old(State()), id, inputTokens)
    {
      stats := stats.(inTokens := inputTokens);
      events := events + [MessageStart(id, inputTokens)];
    }

    /** The blocks to store, in order, and the numbers to store with them: the stop reason,
        the tokens and the model calls. */
    method Result(defaultFinish: string) returns (stored: seq<Block>, reason: string, inTokens: int, outTokens: int,
                  steps: int)
      ensures stored == Renumbered(Sorted(blocks))
      ensures reason == StopReason(stats, defaultFinish)
      ensures inTokens == stats.inTokens && outTokens == stats.outTokens && steps == stats.steps
    {
      inTokens, outTokens, steps := stats.inTokens, stats.outTokens, stats.steps;
      var b := new Block[|blocks|](k requires 0 <= k < |blocks| reads this => blocks[k]);
      assert b[..] == blocks;
      SortBlocksByIdx(b);
      stored := b[..];
      reason := MapFinishReason(stats.lastFinish);
      if stats.failed {
        reason := "error";
      } else if reason == "" {
        reason := defaultFinish;
      }
    }
  }
}
