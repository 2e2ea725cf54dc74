/** From stored messages to the transcript a turn starts with (internal/agent/history.go). */
module History {
  import opened Util
  import opened Sequences
  import opened Text
  import opened Transcript

  datatype Role = UserRole | AssistantRole | OtherRole

  /** A stored block; the arguments of a call are the text they are encoded to. */
  datatype HistoryBlock =
    | TextPart(text: string)
    | UsePart(id: string, name: string, args: string)
    | ResultPart(id: string, name: string, text: string)
    | OtherPart

  datatype StoredMsg = StoredMsg(role: Role, blocks: seq<HistoryBlock>)

  // ------------------------------------------------------- pairing calls and results

  /** The calls with an id in `ids`, numbered afresh from `n`. */
  function KeptCalls(calls: seq<Call>, ids: set<string>, n: nat): seq<Call> {
    if calls == [] then []
    else if calls[0].id in ids then [calls[0].(index := n)] + KeptCalls(calls[1..], ids, n + 1)
    else KeptCalls(calls[1..], ids, n)
  }

  function KeptResults(results: seq<Msg>, ids: set<string>): seq<Msg> {
    if results == [] then []
    else if results[0].Tool? && results[0].callId in ids then [results[0]] + KeptResults(results[1..], ids)
    else KeptResults(results[1..], ids)
  }

  /** The calls that have a result, and the results that have a call. */
  function Paired(calls: seq<Call>, results: seq<Msg>): (seq<Call>, seq<Msg>) {
    (KeptCalls(calls, ResultIds(results), 0), KeptResults(results, CallIds(calls)))
  }

  lemma CallIdsCons(c: Call, calls: seq<Call>)
    ensures CallIds([c] + calls) == {c.id} + CallIds(calls)
  {
    var all := [c] + calls;
    forall id | id in CallIds(calls) ensures id in CallIds(all) {
      var k :| 0 <= k < |calls| && calls[k].id == id;
      assert all[k + 1].id == id;
    }
    assert all[0].id == c.id;
  }

  lemma ResultIdsCons(r: Msg, results: seq<Msg>)
    requires r.Tool?
    ensures ResultIds([r] + results) == {r.callId} + ResultIds(results)
  {
    var all := [r] + results;
    forall id | id in ResultIds(results) ensures id in ResultIds(all) {
      var k :| 0 <= k < |results| && results[k].Tool? && results[k].callId == id;
      assert all[k + 1].callId == id;
    }
    assert all[0].callId == r.callId;
  }

  lemma {:induction false} KeptCallIds(calls: seq<Call>, ids: set<string>, n: nat)
    ensures CallIds(KeptCalls(calls, ids, n)) == CallIds(calls) * ids
  {
    if calls != [] {
      var rest := calls[1..];
      assert calls == [calls[0]] + rest;
      CallIdsCons(calls[0], rest);
      if calls[0].id in ids {
        KeptCallIds(rest, ids, n + 1);
        CallIdsCons(calls[0].(index := n), KeptCalls(rest, ids, n + 1));
      } else {
        KeptCallIds(rest, ids, n);
      }
    }
  }

  lemma {:induction false} KeptResultIds(results: seq<Msg>, ids: set<string>)
    requires AllTools(results)
    ensures AllTools(KeptResults(results, ids))
    ensures ResultIds(KeptResults(results, ids)) == ResultIds(results) * ids
  {
    if results != [] {
      var rest := results[1..];
      assert results == [results[0]] + rest;
      KeptResultIds(rest, ids);
      ResultIdsCons(results[0], rest);
      if results[0].callId in ids {
        ResultIdsCons(results[0], KeptResults(rest, ids));
      }
    }
  }

  lemma {:induction false} IndicesAreFresh(calls: seq<Call>, ids: set<string>, n: nat)
    ensures forall k :: 0 <= k < |KeptCalls(calls, ids, n)| ==> KeptCalls(calls, ids, n)[k].index == n + k
  {
    if calls != [] {
      var kept := KeptCalls(calls, ids, n);
      if calls[0].id in ids {
        IndicesAreFresh(calls[1..], ids, n + 1);
        forall k | 0 <= k < |kept| ensures kept[k].index == n + k {
          if k > 0 {
            assert kept[k] == KeptCalls(calls[1..], ids, n + 1)[k - 1];
          }
        }
      } else {
        IndicesAreFresh(calls[1..], ids, n);
      }
    }
  }

  lemma {:induction false} AllResultsKept(results: seq<Msg>, ids: set<string>)
    requires AllTools(results)
    ensures KeptResults(results, ids) == results <==> ResultIds(results) <= ids
  {
    if results != [] {
      assert results == [results[0]] + results[1..];
      ResultIdsCons(results[0], results[1..]);
      AllResultsKept(results[1..], ids);
      KeptResultsShorter(results[1..], ids);
    }
  }

  lemma {:induction false} KeptResultsShorter(results: seq<Msg>, ids: set<string>)
    ensures |KeptResults(results, ids)| <= |results|
  {
    if results != [] {
      KeptResultsShorter(results[1..], ids);
    }
  }

  lemma {:induction false} AllCallsKept(calls: seq<Call>, ids: set<string>, n: nat)
    ensures |KeptCalls(calls, ids, n)| <= |calls|
    ensures |KeptCalls(calls, ids, n)| == |calls| <==> CallIds(calls) <= ids
  {
    if calls != [] {
      assert calls == [calls[0]] + calls[1..];
      CallIdsCons(calls[0], calls[1..]);
      AllCallsKept(calls[1..], ids, if calls[0].id in ids then n + 1 else n);
    }
  }

  /** What is kept is one group; nothing is dropped exactly when the calls and the results
      name the same ids. */
  lemma PairedIsGroup(content: string, calls: seq<Call>, results: seq<Msg>)
    requires AllTools(results)
    ensures var p := Paired(calls, results);
            && IsGroup([Assistant(content, p.0)] + p.1)
            && (p.0 == [] <==> p.1 == [])
            && (|p.0| == |calls| && p.1 == results <==> CallIds(calls) == ResultIds(results))
  {
    var p := Paired(calls, results);
    KeptCallIds(calls, ResultIds(results), 0);
    KeptResultIds(results, CallIds(calls));
    AllResultsKept(results, CallIds(calls));
    AllCallsKept(calls, ResultIds(results), 0);
    assert ([Assistant(content, p.0)] + p.1)[1..] == p.1;
    EmptyIds(p.0, p.1);
  }

  lemma EmptyIds(calls: seq<Call>, results: seq<Msg>)
    requires AllTools(results) && CallIds(calls) == ResultIds(results)
    ensures calls == [] <==> results == []
  {
    if calls != [] {
      assert calls[0].id in CallIds(calls);
    }
    if results != [] {
      assert results[0].callId in ResultIds(results);
    }
  }

  lemma ResultIdsSnoc(results: seq<Msg>, r: Msg)
    requires r.Tool?
    ensures ResultIds(results + [r]) == ResultIds(results) + {r.callId}
  {
    var all := results + [r];
    forall id | id in ResultIds(results) ensures id in ResultIds(all) {
      var k :| 0 <= k < |results| && results[k].Tool? && results[k].callId == id;
      assert all[k].callId == id;
    }
    assert all[|results|].callId == r.callId;
  }

  method PairToolCalls(calls: seq<Call>, results: seq<Msg>) returns (keptCalls: seq<Call>, keptResults: seq<Msg>)
    requires AllTools(results)
    ensures (keptCalls, keptResults) == Paired(calls, results)
  {
    var have: set<string> := {};
    var i := 0;
    while i < |results|
      invariant 0 <= i <= |results|
      invariant have == ResultIds(results[..i])
    {
      ResultIdsSnoc(results[..i], results[i]);
      assert results[..i + 1] == results[..i] + [results[i]];
      have := have + {results[i].callId};
      i := i + 1;
    }
    assert results[..|results|] == results;
    keptCalls := [];
    var called: set<string> := {};
    i := 0;
    assert calls[0..] == calls && [] + KeptCalls(calls, have, 0) == KeptCalls(calls, have, 0);
    while i < |calls|
      invariant 0 <= i <= |calls|
      invariant keptCalls + KeptCalls(calls[i..], have, |keptCalls|) == KeptCalls(calls, have, 0)
      invariant called == CallIds(calls[..i]) * have
    {
      var c := calls[i];
      assert calls[i..][1..] == calls[i + 1..] && calls[..i + 1] == calls[..i] + [c];
      CallIdsSnoc(calls[..i], c);
      if c.id in have {
        assert keptCalls + ([c.(index := |keptCalls|)] + KeptCalls(calls[i + 1..], have, |keptCalls| + 1)) ==
               (keptCalls + [c.(index := |keptCalls|)]) + KeptCalls(calls[i + 1..], have, |keptCalls| + 1);
        keptCalls := keptCalls + [c.(index := |keptCalls|)];
        called := called + {c.id};
      }
      i := i + 1;
    }
    assert calls[..|calls|] == calls && keptCalls + [] == keptCalls;
    keptResults := KeepResults(results, called);
    SameKept(results, called, CallIds(calls));
  }

  method KeepResults(results: seq<Msg>, called: set<string>) returns (kept: seq<Msg>)
    requires AllTools(results)
    ensures kept == KeptResults(results, called)
  {
    kept := [];
    var i := 0;
    while i < |results|
      invariant 0 <= i <= |results|
      invariant kept + KeptResults(results[i..], called) == KeptResults(results, called)
    {
      assert results[i..][1..] == results[i + 1..];
      if results[i].callId in called {
        assert kept + ([results[i]] + KeptResults(results[i + 1..], called)) ==
               (kept + [results[i]]) + KeptResults(results[i + 1..], called);
        kept := kept + [results[i]];
      }
      i := i + 1;
    }
  }

  lemma CallIdsSnoc(calls: seq<Call>, c: Call)
    ensures CallIds(calls + [c]) == CallIds(calls) + {c.id}
  {
    var all := calls + [c];
    forall id | id in CallIds(calls) ensures id in CallIds(all) {
      var k :| 0 <= k < |calls| && calls[k].id == id;
      assert all[k].id == id;
    }
    assert all[|calls|].id == c.id;
  }

  /** Only the ids that occur among the results matter. */
  lemma {:induction false} SameKept(results: seq<Msg>, a: set<string>, b: set<string>)
    requires a * ResultIds(results) == b * ResultIds(results) && AllTools(results)
    ensures KeptResults(results, a) == KeptResults(results, b)
  {
    if results != [] {
      assert results == [results[0]] + results[1..];
      ResultIdsCons(results[0], results[1..]);
      var ids := ResultIds(results[1..]);
      assert forall id :: id in ids ==> (id in a * ResultIds(results) <==> id in b * ResultIds(results));
      assert a * ids == b * ids;
      assert results[0].callId in a * ResultIds(results) <==> results[0].callId in b * ResultIds(results);
      SameKept(results[1..], a, b);
    }
  }

  // -------------------------------------------------------------- stored to sent

  function TextIn(blocks: seq<HistoryBlock>): string {
    if blocks == [] then "" else (if blocks[0].TextPart? then blocks[0].text else "") + TextIn(blocks[1..])
  }

  function CallsIn(blocks: seq<HistoryBlock>, n: nat): seq<Call> {
    if blocks == [] then []
    else if blocks[0].UsePart? then
      [Call(n, blocks[0].id, blocks[0].name, blocks[0].args)] + CallsIn(blocks[1..], n + 1)
    else CallsIn(blocks[1..], n)
  }

  function ResultsIn(blocks: seq<HistoryBlock>): seq<Msg> {
    if blocks == [] then []
    else if blocks[0].ResultPart? then [Tool(blocks[0].id, blocks[0].name, blocks[0].text)] + ResultsIn(blocks[1..])
    else ResultsIn(blocks[1..])
  }

  /** The messages one stored message is sent as. */
  function Expanded(m: StoredMsg): seq<Msg> {
    match m.role
    case UserRole => [User(TextIn(m.blocks))]
    case AssistantRole =>
      var p := Paired(CallsIn(m.blocks, 0), ResultsIn(m.blocks));
      var text := TextIn(m.blocks);
      if text == "" && p.0 == [] && p.1 == [] then [] else [Assistant(text, p.0)] + p.1
    case OtherRole => []
  }

  // ------------------------------------------------------------ the tools of a reply

  predicate HasUse(blocks: seq<HistoryBlock>, id: string) {
    exists k :: 0 <= k < |blocks| && blocks[k].UsePart? && blocks[k].id == id
  }

  predicate HasResult(blocks: seq<HistoryBlock>, id: string) {
    exists k :: 0 <= k < |blocks| && blocks[k].ResultPart? && blocks[k].id == id
  }

  /** The stored calls that have a result in `all`, in order. */
  function AnsweredUses(blocks: seq<HistoryBlock>, all: seq<HistoryBlock>): seq<HistoryBlock> {
    if blocks == [] then []
    else (if blocks[0].UsePart? && HasResult(all, blocks[0].id) then [blocks[0]] else [])
         + AnsweredUses(blocks[1..], all)
  }

  /** The stored results that have a call in `all`, in order. */
  function ExpectedResults(blocks: seq<HistoryBlock>, all: seq<HistoryBlock>): seq<HistoryBlock> {
    if blocks == [] then []
    else (if blocks[0].ResultPart? && HasUse(all, blocks[0].id) then [blocks[0]] else [])
         + ExpectedResults(blocks[1..], all)
  }

  lemma {:induction false} ResultIdsIn(blocks: seq<HistoryBlock>, id: string)
    ensures id in ResultIds(ResultsIn(blocks)) <==> HasResult(blocks, id)
  {
    if blocks != [] {
      ResultIdsIn(blocks[1..], id);
      HeadTail(blocks);
      if blocks[0].ResultPart? {
        ResultIdsCons(Tool(blocks[0].id, blocks[0].name, blocks[0].text), ResultsIn(blocks[1..]));
      }
      if HasResult(blocks[1..], id) {
        var k :| 0 <= k < |blocks[1..]| && blocks[1..][k].ResultPart? && blocks[1..][k].id == id;
        assert blocks[k + 1].id == id;
      }
    }
  }

  lemma {:induction false} CallIdsIn(blocks: seq<HistoryBlock>, n: nat, id: string)
    ensures id in CallIds(CallsIn(blocks, n)) <==> HasUse(blocks, id)
  {
    if blocks != [] {
      CallIdsIn(blocks[1..], if blocks[0].UsePart? then n + 1 else n, id);
      HeadTail(blocks);
      if blocks[0].UsePart? {
        CallIdsCons(Call(n, blocks[0].id, blocks[0].name, blocks[0].args), CallsIn(blocks[1..], n + 1));
      }
      if HasUse(blocks[1..], id) {
        var k :| 0 <= k < |blocks[1..]| && blocks[1..][k].UsePart? && blocks[1..][k].id == id;
        assert blocks[k + 1].id == id;
      }
    }
  }

  /** The calls, numbered from `n`, are those of the blocks. */
  predicate AreUses(calls: seq<Call>, uses: seq<HistoryBlock>, n: nat) {
    |calls| == |uses| && forall k :: 0 <= k < |calls| ==>
      uses[k].UsePart? && calls[k] == Call(n + k, uses[k].id, uses[k].name, uses[k].args)
  }

  predicate AreResults(ms: seq<Msg>, results: seq<HistoryBlock>) {
    |ms| == |results| && forall k :: 0 <= k < |ms| ==>
      results[k].ResultPart? && ms[k] == Tool(results[k].id, results[k].name, results[k].text)
  }

  lemma OneMoreUse(b: HistoryBlock, calls: seq<Call>, uses: seq<HistoryBlock>, n: nat)
    requires b.UsePart? && AreUses(calls, uses, n + 1)
    ensures AreUses([Call(n, b.id, b.name, b.args)] + calls, [b] + uses, n)
  {
  }

  lemma {:induction false} KeptAreUses(blocks: seq<HistoryBlock>, all: seq<HistoryBlock>, m: nat, n: nat)
    ensures AreUses(KeptCalls(CallsIn(blocks, m), ResultIds(ResultsIn(all)), n), AnsweredUses(blocks, all), n)
  {
    if blocks != [] {
      var b, rest := blocks[0], blocks[1..];
      if b.UsePart? {
        var calls := [Call(m, b.id, b.name, b.args)] + CallsIn(rest, m + 1);
        Cons(Call(m, b.id, b.name, b.args), CallsIn(rest, m + 1));
        ResultIdsIn(all, b.id);
        if HasResult(all, b.id) {
          KeptAreUses(rest, all, m + 1, n + 1);
          var kept := KeptCalls(CallsIn(rest, m + 1), ResultIds(ResultsIn(all)), n + 1);
          OneMoreUse(b, kept, AnsweredUses(rest, all), n);
          assert KeptCalls(calls, ResultIds(ResultsIn(all)), n) == [Call(n, b.id, b.name, b.args)] + kept;
        } else {
          KeptAreUses(rest, all, m + 1, n);
          Nothing(AnsweredUses(rest, all));
        }
      } else {
        KeptAreUses(rest, all, m, n);
        Nothing(AnsweredUses(rest, all));
      }
    }
  }

  lemma {:induction false} KeptAreResults(blocks: seq<HistoryBlock>, all: seq<HistoryBlock>)
    ensures AreResults(KeptResults(ResultsIn(blocks), CallIds(CallsIn(all, 0))), ExpectedResults(blocks, all))
  {
    if blocks != [] {
      var b, rest := blocks[0], blocks[1..];
      KeptAreResults(rest, all);
      Nothing(ExpectedResults(rest, all));
      if b.ResultPart? {
        CallIdsIn(all, 0, b.id);
        Cons(Tool(b.id, b.name, b.text), ResultsIn(rest));
      }
    }
  }

  /** A stored reply is sent with exactly the calls it stores a result for, in order and under
      their own ids, names and arguments, and behind it with exactly the results of stored calls. */
  lemma RepliesKeepTools(m: StoredMsg)
    requires m.role == AssistantRole
    ensures var out := Expanded(m);
            && (out == [] ==> TextIn(m.blocks) == "" && AnsweredUses(m.blocks, m.blocks) == [])
            && (out != [] ==>
                  && out[0].Assistant? && out[0].content == TextIn(m.blocks)
                  && AreUses(out[0].calls, AnsweredUses(m.blocks, m.blocks), 0)
                  && AreResults(out[1..], ExpectedResults(m.blocks, m.blocks)))
  {
    KeptAreUses(m.blocks, m.blocks, 0, 0);
    KeptAreResults(m.blocks, m.blocks);
    var p := Paired(CallsIn(m.blocks, 0), ResultsIn(m.blocks));
    Cons(Assistant(TextIn(m.blocks), p.0), p.1);
  }

  function HistoryMessages(msgs: seq<StoredMsg>): seq<Msg> {
    if msgs == [] then [] else Expanded(msgs[0]) + HistoryMessages(msgs[1..])
  }

  lemma {:induction false} HistoryOfBoth(a: seq<StoredMsg>, b: seq<StoredMsg>)
    ensures HistoryMessages(a + b) == HistoryMessages(a) + HistoryMessages(b)
  {
    if a == [] {
      Nothing(b);
      Nothing(HistoryMessages(b));
    } else {
      assert (a + b)[1..] == a[1..] + b;
      HistoryOfBoth(a[1..], b);
      Rejoin(Expanded(a[0]), HistoryMessages(a[1..]), HistoryMessages(b));
    }
  }

  /** A stored reply without tool calls is one message. */
  lemma ReplyRow(text: string)
    requires text != ""
    ensures Expanded(StoredMsg(AssistantRole, [TextPart(text)])) == [Assistant(text, [])]
  {
    var blocks := [TextPart(text)];
    assert blocks[1..] == [];
    Nothing(text);
    assert TextIn(blocks) == text + TextIn(blocks[1..]);
    assert Paired([], []) == ([], []);
    assert CallsIn(blocks, 0) == CallsIn(blocks[1..], 0) && ResultsIn(blocks) == ResultsIn(blocks[1..]);
  }

  /** How many rows of a session are loaded, from the oldest on. */
  const LOADED_ROWS := 500

  function Loaded(rows: seq<StoredMsg>): seq<StoredMsg> {
    if |rows| <= LOADED_ROWS then rows else rows[..LOADED_ROWS]
  }

  /** A new row is loaded unless the session is full: once 500 rows are stored, a turn does
      not load its own message any more. */
  lemma NewRowsAreLoadedExactly(rows: seq<StoredMsg>, row: StoredMsg)
    ensures Loaded(rows + [row]) == if |rows| < 500 then rows + [row] else Loaded(rows)
  {
    if |rows| > LOADED_ROWS {
      assert (rows + [row])[..LOADED_ROWS] == rows[..LOADED_ROWS];
    } else if |rows| == LOADED_ROWS {
      assert (rows + [row])[..LOADED_ROWS] == rows;
    }
  }

  lemma {:induction false} ResultsAreTools(blocks: seq<HistoryBlock>)
    ensures AllTools(ResultsIn(blocks))
  {
    if blocks != [] {
      ResultsAreTools(blocks[1..]);
    }
  }

  /** Whatever is stored, also by turns that were cut off, the transcript is well formed. */
  lemma {:induction false} HistoryIsWellFormed(msgs: seq<StoredMsg>)
    ensures WellFormed(HistoryMessages(msgs))
  {
    if msgs != [] {
      var m := msgs[0];
      ResultsAreTools(m.blocks);
      PairedIsGroup(TextIn(m.blocks), CallsIn(m.blocks, 0), ResultsIn(m.blocks));
      HistoryIsWellFormed(msgs[1..]);
      if m.role == UserRole {
        WellFormedSingle(User(TextIn(m.blocks)));
      } else if Expanded(m) != [] {
        WellFormedGroup(Expanded(m));
      }
      WellFormedAppend(Expanded(m), HistoryMessages(msgs[1..]));
    }
  }

  function UserTexts(ms: seq<Msg>): seq<string> {
    if ms == [] then [] else (if ms[0].User? then [ms[0].content] else []) + UserTexts(ms[1..])
  }

  function ReplyTexts(ms: seq<Msg>): string {
    if ms == [] then "" else (if ms[0].Assistant? then ms[0].content else "") + ReplyTexts(ms[1..])
  }

  /** The texts of the stored messages of one role. */
  function StoredTexts(msgs: seq<StoredMsg>, role: Role): seq<string> {
    if msgs == [] then [] else
    (if msgs[0].role == role then [TextIn(msgs[0].blocks)] else []) + StoredTexts(msgs[1..], role)
  }

  lemma {:induction false} TextsOfBoth(a: seq<Msg>, b: seq<Msg>)
    ensures UserTexts(a + b) == UserTexts(a) + UserTexts(b)
    ensures ReplyTexts(a + b) == ReplyTexts(a) + ReplyTexts(b)
  {
    if a == [] {
      Nothing(b);
      Nothing(UserTexts(b));
      Nothing(ReplyTexts(b));
    } else {
      assert (a + b)[1..] == a[1..] + b;
      TextsOfBoth(a[1..], b);
      Rejoin(if a[0].User? then [a[0].content] else [], UserTexts(a[1..]), UserTexts(b));
      Rejoin(if a[0].Assistant? then a[0].content else "", ReplyTexts(a[1..]), ReplyTexts(b));
    }
  }

  lemma {:induction false} NoTextsInTools(ts: seq<Msg>)
    requires AllTools(ts)
    ensures UserTexts(ts) == [] && ReplyTexts(ts) == ""
  {
    if ts != [] {
      NoTextsInTools(ts[1..]);
    }
  }

  lemma ExpandedTexts(m: StoredMsg)
    ensures UserTexts(Expanded(m)) == if m.role == UserRole then [TextIn(m.blocks)] else []
    ensures ReplyTexts(Expanded(m)) == if m.role == AssistantRole then TextIn(m.blocks) else ""
  {
    if m.role == AssistantRole && Expanded(m) != [] {
      ResultsAreTools(m.blocks);
      var p := Paired(CallsIn(m.blocks, 0), ResultsIn(m.blocks));
      KeptResultIds(ResultsIn(m.blocks), CallIds(CallsIn(m.blocks, 0)));
      Cons(Assistant(TextIn(m.blocks), p.0), p.1);
      NoTextsInTools(p.1);
      Nothing(TextIn(m.blocks));
    } else if m.role == UserRole {
      assert Expanded(m)[1..] == [];
    }
  }

  /** No text is lost: the user's messages are sent as they are stored, and the replies hold
      all the text of the stored replies. */
  lemma {:induction false} HistoryKeepsTexts(msgs: seq<StoredMsg>)
    ensures UserTexts(HistoryMessages(msgs)) == StoredTexts(msgs, UserRole)
    ensures ReplyTexts(HistoryMessages(msgs)) == Concat(StoredTexts(msgs, AssistantRole))
  {
    if msgs != [] {
      HistoryKeepsTexts(msgs[1..]);
      ExpandedTexts(msgs[0]);
      TextsOfBoth(Expanded(msgs[0]), HistoryMessages(msgs[1..]));
      var later := StoredTexts(msgs[1..], AssistantRole);
      Nothing(later);
      Nothing(Concat(later));
      Cons(TextIn(msgs[0].blocks), later);
    }
  }

  method HistoryToMessages(msgs: seq<StoredMsg>) returns (out: seq<Msg>)
    ensures out == HistoryMessages(msgs)
  {
    out := [];
    var i := 0;
    while i < |msgs|
      invariant 0 <= i <= |msgs|
      invariant out + HistoryMessages(msgs[i..]) == HistoryMessages(msgs)
    {
      assert msgs[i..][1..] == msgs[i + 1..];
      assert out + (Expanded(msgs[i]) + HistoryMessages(msgs[i + 1..])) ==
             (out + Expanded(msgs[i])) + HistoryMessages(msgs[i + 1..]);
      var one := ExpandMessage(msgs[i]);
      out := out + one;
      i := i + 1;
    }
  }

  method ExpandMessage(m: StoredMsg) returns (out: seq<Msg>)
    ensures out == Expanded(m)
  {
    match m.role {
      case OtherRole => out := [];
      case UserRole =>
        var text, _, _ := ReadBlocks(m.blocks);
        out := [User(text)];
      case AssistantRole =>
        var text, calls, results := ReadBlocks(m.blocks);
        ResultsAreTools(m.blocks);
        calls, results := PairToolCalls(calls, results);
        if text == "" && calls == [] && results == [] {
          return [];
        }
        out := [Assistant(text, calls)] + results;
    }
  }

  method ReadBlocks(blocks: seq<HistoryBlock>) returns (text: string, calls: seq<Call>, results: seq<Msg>)
    ensures text == TextIn(blocks) && calls == CallsIn(blocks, 0) && results == ResultsIn(blocks)
  {
    text, calls, results := "", [], [];
    var i := 0;
    while i < |blocks|
      invariant 0 <= i <= |blocks|
      invariant text + TextIn(blocks[i..]) == TextIn(blocks)
      invariant calls + CallsIn(blocks[i..], |calls|) == CallsIn(blocks, 0)
      invariant results + ResultsIn(blocks[i..]) == ResultsIn(blocks)
    {
      var b := blocks[i];
      var rest := blocks[i + 1..];
      assert blocks[i..][1..] == rest;
      match b {
        case TextPart(t) =>
          assert text + (t + TextIn(rest)) == (text + t) + TextIn(rest);
          text := text + t;
        case UsePart(id, name, args) =>
          assert calls + ([Call(|calls|, id, name, args)] + CallsIn(rest, |calls| + 1)) ==
                 (calls + [Call(|calls|, id, name, args)]) + CallsIn(rest, |calls| + 1);
          calls := calls + [Call(|calls|, id, name, args)];
        case ResultPart(id, name, t) =>
          assert results + ([Tool(id, name, t)] + ResultsIn(rest)) == (results + [Tool(id, name, t)]) + ResultsIn(rest);
          results := results + [Tool(id, name, t)];
        case OtherPart =>
      }
      i := i + 1;
    }
  }

  // --------------------------------------------------------------------- trimming

  function ApproxTokens(s: string): nat {
    (Bytes(s) + 3) / 4
  }

  function ArgsCost(calls: seq<Call>): nat {
    if calls == [] then 0 else ApproxTokens(calls[0].args) + ArgsCost(calls[1..])
  }

  function CostOf(m: Msg): nat {
    ApproxTokens(m.content) + if m.Assistant? then ArgsCost(m.calls) else 0
  }

  function Cost(ms: seq<Msg>): nat {
    if ms == [] then 0 else CostOf(ms[0]) + Cost(ms[1..])
  }

  lemma {:induction false} CostOfSuffix(ms: seq<Msg>, i: nat, j: nat)
    requires i <= j <= |ms|
    ensures Cost(ms[j..]) <= Cost(ms[i..])
    decreases j - i
  {
    if i < j {
      assert ms[i..][1..] == ms[i + 1..];
      CostOfSuffix(ms, i + 1, j);
    }
  }

  predicate HasUser(ms: seq<Msg>) {
    exists k :: 0 <= k < |ms| && ms[k].User?
  }

  predicate IsLastUser(ms: seq<Msg>, k: nat) {
    k < |ms| && ms[k].User? && forall j :: k < j < |ms| ==> !ms[j].User?
  }

  predicate NeedsTrimming(ms: seq<Msg>, budget: int) {
    0 < budget < Cost(ms) && HasUser(ms)
  }

  /** `k` begins the longest suffix that starts at a user message and fits the budget, or
      the last user message when none fits. */
  ghost predicate IsBestStart(ms: seq<Msg>, budget: int, k: nat) {
    && k < |ms| && ms[k].User?
    && (Cost(ms[k..]) <= budget || IsLastUser(ms, k))
    && forall j :: 0 <= j < k && ms[j].User? ==> Cost(ms[j..]) > budget
  }

  /** There is only one best start, so the trimmed history is determined. */
  lemma BestStartIsUnique(ms: seq<Msg>, budget: int, i: nat, j: nat)
    requires IsBestStart(ms, budget, i) && IsBestStart(ms, budget, j)
    ensures i == j
  {
  }

  method TrimHistory(msgs: seq<Msg>, budget: int) returns (out: seq<Msg>, start: nat)
    ensures start <= |msgs| && out == msgs[start..]
    ensures if NeedsTrimming(msgs, budget) then IsBestStart(msgs, budget, start) else start == 0
  {
    out, start := msgs, 0;
    if budget <= 0 {
      return;
    }
    var total := TotalCost(msgs);
    if total <= budget {
      return;
    }
    var lastUser := FindLastUser(msgs);
    if lastUser < 0 {
      return;
    }
    var from := DropToFit(msgs, total, budget, lastUser);
    start := SkipToUser(msgs, from, lastUser);
    CostOfSuffix(msgs, from, start);
    out := msgs[start..];
  }

  /** Drops messages from the front until the rest fits, but never the last user message. */
  method DropToFit(msgs: seq<Msg>, total: nat, budget: int, lastUser: int) returns (from: nat)
    requires total == Cost(msgs) && 0 <= lastUser < |msgs|
    ensures from <= lastUser
    ensures from < lastUser ==> Cost(msgs[from..]) <= budget
    ensures forall j :: 0 <= j < from ==> Cost(msgs[j..]) > budget
  {
    from := 0;
    var left := total;
    assert msgs[0..] == msgs;
    while from < lastUser && left > budget
      invariant 0 <= from <= lastUser
      invariant left == Cost(msgs[from..])
      invariant forall j :: 0 <= j < from ==> Cost(msgs[j..]) > budget
    {
      assert msgs[from..][1..] == msgs[from + 1..];
      left := left - CostOf(msgs[from]);
      from := from + 1;
    }
  }

  /** Never begins on an orphaned tool result or a dangling reply. */
  method SkipToUser(msgs: seq<Msg>, from: nat, lastUser: int) returns (start: nat)
    requires from <= lastUser < |msgs| && msgs[lastUser].User?
    ensures from <= start <= lastUser && msgs[start].User?
    ensures forall j :: from <= j < start ==> !msgs[j].User?
  {
    start := from;
    while start < lastUser && !msgs[start].User?
      invariant from <= start <= lastUser
      invariant forall j :: from <= j < start ==> !msgs[j].User?
    {
      start := start + 1;
    }
  }

  method TotalCost(msgs: seq<Msg>) returns (total: nat)
    ensures total == Cost(msgs)
  {
    total := 0;
    var i := |msgs|;
    while i > 0
      invariant 0 <= i <= |msgs| && total == Cost(msgs[i..])
    {
      i := i - 1;
      assert msgs[i..][1..] == msgs[i + 1..];
      total := total + CostOf(msgs[i]);
    }
  }

  method FindLastUser(msgs: seq<Msg>) returns (k: int)
    ensures k < 0 ==> !HasUser(msgs)
    ensures k >= 0 ==> IsLastUser(msgs, k)
  {
    k := |msgs| - 1;
    while k >= 0
      invariant -1 <= k < |msgs|
      invariant forall j :: k < j < |msgs| ==> !msgs[j].User?
    {
      if msgs[k].User? {
        return;
      }
      k := k - 1;
    }
  }

  /** Trimming keeps a transcript well formed, keeps the last user message, and makes it
      begin with a user message. */
  lemma TrimmedHistory(ms: seq<Msg>, budget: int, k: nat)
    requires WellFormed(ms) && IsBestStart(ms, budget, k)
    ensures WellFormed(ms[k..]) && ms[k..][0].User?
    ensures forall j :: IsLastUser(ms, j) ==> k <= j
  {
    WellFormedSplit(ms, k);
  }

  /** Whether the history that is sent begins with a user message: always after trimming,
      but an untrimmed history begins as it is stored. */
  lemma BeginsWithUser(ms: seq<Msg>, budget: int, start: nat)
    requires if NeedsTrimming(ms, budget) then IsBestStart(ms, budget, start) else start == 0
    ensures (start < |ms| && ms[start].User?) <==> (NeedsTrimming(ms, budget) || (ms != [] && ms[0].User?))
  {
  }

  lemma UntrimmedMayBeginWithReply()
    ensures var ms := [Assistant("hi", []), User("ok")];
            WellFormed(ms) && HasUser(ms) && !NeedsTrimming(ms, 100) && !ms[0].User?
  {
    var ms := [Assistant("hi", []), User("ok")];
    assert ms[..1] == [ms[0]] && ms[1..] == [ms[1]];
    WellFormedSingle(ms[1]);
    assert ms[1].User?;
    assert Cost(ms[1..]) == CostOf(ms[1]) + Cost(ms[1..][1..]);
  }
}
