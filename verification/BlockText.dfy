/**
 From the model's content chunks to the text of a block: the guard, then the citation
 rewriter, then what the assembler records. The text of every stored block is a
 function of the chunks the model wrote for it, and for plainly indented text a
 function of their concatenation alone.
 */
module BlockText {
  import opened Util
  import opened Text
  import opened LineFeed
  import opened Sequences
  import opened GuardState
  import opened GuardChunks
  import opened GuardRender
  import opened TextGuard
  import opened AssemblerState
  import CiteRefs
  import EventStream
  import JsonRepair

  /** The content chunks of a run, text block by text block. */
  datatype Talk = Talk(done: seq<seq<string>>, open: Option<seq<string>>)

  /** A text block ends. */
  function Broken(t: Talk): Talk {
    if t.open.None? then t else Talk(t.done + [t.open.value], None)
  }

  function Continued(t: Talk, content: string): Talk {
    t.(open := Some((if t.open.Some? then t.open.value else []) + [content]))
  }

  function Heard(t: Talk, m: Chunk): Talk {
    var u := if m.reasoning != "" then Broken(t) else t;
    var v := if m.content != "" then Continued(u, m.content) else u;
    if m.calls != [] then Broken(v) else v
  }

  /** Consecutive content chunks make one text block; it ends where the model reasons, calls
      a tool or stops. */
  function Spoken(calls: seq<Call>): Talk
    decreases |calls|
  {
    if calls == [] then Talk([], None) else
    var t := Spoken(calls[..|calls| - 1]);
    var c := calls[|calls| - 1];
    if c.DoChunk? then Heard(t, c.chunk)
    else if EventStream.Closes(c) then Broken(t)
    else t
  }

  /** What a text block made of these chunks comes to. */
  function Output(chunks: seq<string>, env: Env): string {
    CiteRefs.Rewrite(Received(chunks, env.fix), env.refs)
  }

  function Outputs(done: seq<seq<string>>, env: Env): seq<string> {
    seq(|done|, k requires 0 <= k < |done| => Output(done[k], env))
  }

  function TextOf(b: Block): seq<string> {
    if b.StoredText? then [b.text] else []
  }

  /** The texts of the stored text blocks. */
  function Texts(blocks: seq<Block>): seq<string>
    decreases |blocks|
  {
    if blocks == [] then [] else Texts(blocks[..|blocks| - 1]) + TextOf(blocks[|blocks| - 1])
  }

  lemma TextsAfter(blocks: seq<Block>, b: Block)
    ensures Texts(blocks + [b]) == Texts(blocks) + TextOf(b)
  {
    assert (blocks + [b])[..|blocks|] == blocks;
  }

  // ------------------------------------------------------------------- one block

  function GuardAfter(chunks: seq<string>, fix: Fixer): Step<Guard> {
    Streamed(Consuming(fix), FRESH, chunks)
  }

  /** What the guard releases for each chunk. */
  function Released(chunks: seq<string>, fix: Fixer): seq<string>
    decreases |chunks|
  {
    if chunks == [] then [] else
    var before := chunks[..|chunks| - 1];
    Released(before, fix) + [Fed(Consuming(fix), GuardAfter(before, fix).state, chunks[|chunks| - 1]).out]
  }

  lemma {:induction false} StreamedSnoc<G>(use: Consumer<G>, g: G, chunks: seq<string>, x: string)
    ensures var run := Streamed(use, g, chunks);
            Streamed(use, g, chunks + [x]) == Then(run, Fed(use, run.state, x))
    decreases |chunks|
  {
    if chunks == [] {
      assert chunks + [x] == [x] && [x][1..] == [];
      var first := Fed(use, g, x);
      assert first.out + "" == first.out && "" + first.out == first.out;
    } else {
      assert (chunks + [x])[1..] == chunks[1..] + [x];
      var first := Fed(use, g, chunks[0]);
      StreamedSnoc(use, first.state, chunks[1..], x);
      var rest := Streamed(use, first.state, chunks[1..]);
      ThenAssociates(first, rest, Fed(use, rest.state, x));
    }
  }

  lemma {:induction false} SentSnoc(held: string, outs: seq<string>, x: string, refs: CiteRefs.Refs)
    ensures var sent := CiteRefs.Sent(held, outs, refs);
            var last := CiteRefs.Fed(sent.0, x, refs);
            CiteRefs.Sent(held, outs + [x], refs) == (last.0, sent.1 + last.1)
    decreases |outs|
  {
    if outs == [] {
      assert outs + [x] == [x] && [x][1..] == [];
      var first := CiteRefs.Fed(held, x, refs);
      assert first.1 + "" == first.1 && "" + first.1 == first.1;
    } else {
      assert (outs + [x])[1..] == outs[1..] + [x];
      var first := CiteRefs.Fed(held, outs[0], refs);
      SentSnoc(first.0, outs[1..], x, refs);
      var sent := CiteRefs.Sent(first.0, outs[1..], refs);
      Rejoin(first.1, sent.1, CiteRefs.Fed(sent.0, x, refs).1);
    }
  }

  lemma {:induction false} ReleasedConcat(chunks: seq<string>, fix: Fixer)
    ensures Concat(Released(chunks, fix)) == GuardAfter(chunks, fix).out
    decreases |chunks|
  {
    if chunks != [] {
      var before, x := chunks[..|chunks| - 1], chunks[|chunks| - 1];
      ReleasedConcat(before, fix);
      assert before + [x] == chunks;
      StreamedSnoc(Consuming(fix), FRESH, before, x);
      ConcatSnoc(Released(before, fix), Fed(Consuming(fix), GuardAfter(before, fix).state, x).out);
    }
  }

  /** An open text block stands where its chunks have brought it. */
  predicate Carries(o: Open, chunks: seq<string>, env: Env) {
    && o.guard == GuardAfter(chunks, env.fix).state
    && (o.held, o.text) == CiteRefs.Sent("", Released(chunks, env.fix), env.refs)
  }

  lemma FeedCarries(o: Open, chunks: seq<string>, x: string, env: Env)
    requires Carries(o, chunks, env)
    ensures var fed := FeedText(o, x, env);
            Carries(fed.0.(text := o.text + fed.1), chunks + [x], env)
  {
    assert (chunks + [x])[..|chunks|] == chunks;
    StreamedSnoc(Consuming(env.fix), FRESH, chunks, x);
    SentSnoc("", Released(chunks, env.fix), Fed(Consuming(env.fix), o.guard, x).out, env.refs);
  }

  /** Sealing a block releases all that both stages still hold. */
  lemma SealGivesOutput(o: Open, chunks: seq<string>, env: Env)
    requires Carries(o, chunks, env)
    ensures o.text + LastRelease(o, env) == Output(chunks, env)
  {
    var outs := Released(chunks, env.fix);
    var last := Flushed(o.guard, env.fix).out;
    SentSnoc("", outs, last, env.refs);
    var fed := CiteRefs.Fed(o.held, last, env.refs);
    CiteRefs.StreamingIsRewriting("", outs + [last], env.refs);
    ConcatSnoc(outs, last);
    ReleasedConcat(chunks, env.fix);
    assert "" + Concat(outs + [last]) == Received(chunks, env.fix);
    Rejoin(o.text, fed.1, CiteRefs.Rewrite(fed.0, env.refs));
  }

  // ------------------------------------------------------------------ whole runs

  /** The stored texts are the outputs of the chunks so far. */
  ghost predicate Agrees(s: Stream, t: Talk, env: Env) {
    && Texts(s.blocks) == Outputs(t.done, env)
    && (IsOpen(s, TextBlock) <==> t.open.Some?)
    && (t.open.Some? ==> Carries(s.open.value, t.open.value, env))
  }

  lemma CloseAgrees(s: Stream, t: Talk, env: Env)
    requires Agrees(s, t, env)
    ensures Agrees(CloseStream(s, env), Broken(t), env)
  {
    if IsOpen(s, TextBlock) {
      var o := s.open.value;
      SealGivesOutput(o, t.open.value, env);
      assert o.text + "" == o.text;
      TextsAfter(s.blocks, StoredText(s.order, Output(t.open.value, env)));
      assert Outputs(t.done + [t.open.value], env) == Outputs(t.done, env) + [Output(t.open.value, env)];
    } else if s.open.Some? {
      TextsAfter(s.blocks, Stored(s.open.value, s.order));
      assert Texts(s.blocks) + [] == Texts(s.blocks);
    }
  }

  lemma StartAgrees(s: Stream, typ: BlockType, streamIdx: int, id: string, name: string, t: Talk, env: Env)
    requires Agrees(s, t, env) && s.open.None? && typ != TextBlock
    ensures Agrees(Start(s, typ, streamIdx, id, name), t, env)
  {
  }

  lemma ReasonAgrees(a: Asm, text: string, t: Talk, env: Env)
    requires Agrees(a.stream, t, env)
    ensures Agrees(Reason(a, text, env).stream, if text != "" then Broken(t) else t, env)
  {
    if text != "" && !IsOpen(a.stream, ThinkingBlock) {
      CloseAgrees(a.stream, t, env);
      StartAgrees(CloseStream(a.stream, env), ThinkingBlock, 0, "", "", Broken(t), env);
    }
  }

  lemma SpeakAgrees(s: Stream, text: string, chunks: seq<string>, done: seq<seq<string>>, env: Env)
    requires IsOpen(s, TextBlock) && Carries(s.open.value, chunks, env)
    requires Texts(s.blocks) == Outputs(done, env)
    ensures Agrees(Speak(s, text, env), Talk(done, Some(chunks + [text])), env)
  {
    FeedCarries(s.open.value, chunks, text, env);
    assert s.open.value.text + "" == s.open.value.text;
  }

  lemma SayAgrees(a: Asm, text: string, t: Talk, env: Env)
    requires Agrees(a.stream, t, env)
    ensures Agrees(Say(a, text, env).stream, if text != "" then Continued(t, text) else t, env)
  {
    if text != "" {
      if !IsOpen(a.stream, TextBlock) {
        CloseAgrees(a.stream, t, env);
      }
      var s := Ensure(a, TextBlock, env).stream;
      SpeakAgrees(s, text, if t.open.Some? then t.open.value else [], t.done, env);
    }
  }

  lemma CallToolAgrees(a: Asm, tc: ToolCall, t: Talk, env: Env)
    requires Agrees(a.stream, t, env)
    ensures Agrees(CallTool(a, tc, env).stream, Broken(t), env)
  {
    if !Continues(a.stream, tc) {
      CloseAgrees(a.stream, t, env);
      StartAgrees(CloseStream(a.stream, env), ToolUseBlock, CallIndex(tc), tc.id, tc.name, Broken(t), env);
    }
  }

  lemma {:induction false} CallToolsAgree(a: Asm, calls: seq<ToolCall>, t: Talk, env: Env)
    requires Agrees(a.stream, t, env)
    ensures Agrees(CallTools(a, calls, env).stream, if calls != [] then Broken(t) else t, env)
    decreases |calls|
  {
    if calls != [] {
      CallToolAgrees(a, calls[0], t, env);
      CallToolsAgree(CallTool(a, calls[0], env), calls[1..], Broken(t), env);
    }
  }

  lemma ChunkAgrees(a: Asm, m: Chunk, t: Talk, env: Env)
    requires Agrees(a.stream, t, env)
    ensures Agrees(ModelChunk(a, m, env).stream, Heard(t, m), env)
  {
    ReasonAgrees(a, m.reasoning, t, env);
    var b := Reason(a, m.reasoning, env);
    var u := if m.reasoning != "" then Broken(t) else t;
    SayAgrees(b, m.content, u, env);
    CallToolsAgree(Say(b, m.content, env), m.calls, if m.content != "" then Continued(u, m.content) else u, env);
  }

  lemma ToolEndAgrees(a: Asm, name: string, response: string, isErr: bool, t: Talk, env: Env)
    requires Agrees(a.stream, t, env)
    ensures Agrees(ToolEnd(a, name, response, isErr).stream, t, env)
  {
    var blocks := ToolEnd(a, name, response, isErr).stream.blocks;
    TextsAfter(a.stream.blocks, blocks[|a.stream.blocks|]);
    assert Texts(a.stream.blocks) + [] == Texts(a.stream.blocks);
  }

  /** For every sequence of calls, the stored texts are those of the chunks the model wrote. */
  lemma {:induction false} StoredTextsAreOutputs(calls: seq<Call>, env: Env)
    ensures Agrees(Run(calls, env).stream, Spoken(calls), env)
    decreases |calls|
  {
    if calls == [] {
      assert Outputs([], env) == [];
    } else {
      var before, c := calls[..|calls| - 1], calls[|calls| - 1];
      StoredTextsAreOutputs(before, env);
      var a, t := Run(before, env), Spoken(before);
      if c.DoChunk? {
        ChunkAgrees(a, c.chunk, t, env);
      } else if EventStream.Closes(c) {
        CloseAgrees(a.stream, t, env);
        EventStream.ClosingCalls(a, c, env);
      } else if c.DoToolEnd? {
        ToolEndAgrees(a, c.name, c.response, c.isErr, t, env);
      }
    }
  }

  // -------------------------------------------------------------- chunks do not matter

  /** The same blocks of text, cut into chunks in any way. */
  ghost predicate SameText(t: Talk, u: Talk) {
    |t.done| == |u.done| && forall k :: 0 <= k < |t.done| ==> Concat(t.done[k]) == Concat(u.done[k])
  }

  ghost predicate PlainTalk(t: Talk) {
    forall k :: 0 <= k < |t.done| ==> PlainText(Concat(t.done[k]))
  }

  predicate PlainText(text: string) {
    forall k :: 0 <= k < |Lines(text)| ==> PlainlyIndented(Lines(text)[k])
  }

  lemma OutputIsRendering(chunks: seq<string>, env: Env)
    requires Honest(env.fix) && CutSafe(FRESH, Concat(chunks), env.fix)
    ensures Output(chunks, env) == CiteRefs.Rewrite(Rendered(Concat(chunks), env.fix).text, env.refs)
  {
    StreamedIsRendered(chunks, env.fix);
  }

  /** End to end: two runs in which the model writes the same plainly indented text, cut into
      chunks in different ways, store the same texts. */
  lemma ChunksDoNotMatter(calls: seq<Call>, calls': seq<Call>, eval: JsonRepair.Evaluator,
                          refs: CiteRefs.Refs, json: Json)
    requires SameText(Spoken(calls), Spoken(calls')) && PlainTalk(Spoken(calls))
    ensures var env := Env(RepairWith(eval), refs, json);
            Texts(Run(calls, env).stream.blocks) == Texts(Run(calls', env).stream.blocks)
  {
    var env := Env(RepairWith(eval), refs, json);
    var t, u := Spoken(calls), Spoken(calls');
    StoredTextsAreOutputs(calls, env);
    StoredTextsAreOutputs(calls', env);
    forall k | 0 <= k < |t.done| ensures Output(t.done[k], env) == Output(u.done[k], env) {
      assert PlainText(Concat(t.done[k]));
      GuardIsChunkInvariant(t.done[k], u.done[k], eval);
    }
    assert Outputs(t.done, env) == Outputs(u.done, env);
  }

  /** With proper ids, no stored text holds a citation whose case ref is known. */
  lemma StoredTextsAreResolved(calls: seq<Call>, env: Env, k: nat, i: nat)
    requires CiteRefs.ProperIds(env.refs)
    requires k < |Texts(Run(calls, env).stream.blocks)|
    requires i <= |Texts(Run(calls, env).stream.blocks)[k]|
    ensures !CiteRefs.ResolvableAt(Texts(Run(calls, env).stream.blocks)[k], i, env.refs)
  {
    StoredTextsAreOutputs(calls, env);
    var chunks := Spoken(calls).done[k];
    CiteRefs.NothingResolvableRemains(Received(chunks, env.fix), env.refs, i);
  }
}
