/**
 The order of the stored blocks: an insertion sort by index and a renumbering, in place.
 The sort is proved to be one; on the blocks of a run it has nothing to do.
 */
module BlockOrder {
  import opened Util
  import opened AssemblerState
  import opened Sequences
  import EventStream

  /** `x` placed behind the last block whose index is not larger. */
  function Insert(s: seq<Block>, x: Block): (t: seq<Block>)
    ensures |t| == |s| + 1
    decreases |s|
  {
    if s == [] || s[|s| - 1].idx <= x.idx then s + [x] else Insert(s[..|s| - 1], x) + [s[|s| - 1]]
  }

  function Sorted(s: seq<Block>): (t: seq<Block>)
    ensures |t| == |s|
    decreases |s|
  {
    if s == [] then [] else Insert(Sorted(s[..|s| - 1]), s[|s| - 1])
  }

  function WithIdx(b: Block, k: nat): Block {
    b.(idx := k)
  }

  function Renumbered(s: seq<Block>): seq<Block> {
    seq(|s|, k requires 0 <= k < |s| => WithIdx(s[k], k))
  }

  ghost predicate IsOrdered(s: seq<Block>) {
    forall i, j :: 0 <= i < j < |s| ==> s[i].idx <= s[j].idx
  }

  lemma {:induction false} InsertAdds(s: seq<Block>, x: Block)
    ensures multiset(Insert(s, x)) == multiset(s) + multiset{x}
    decreases |s|
  {
    if s != [] && s[|s| - 1].idx > x.idx {
      var init := s[..|s| - 1];
      InsertAdds(init, x);
      assert s == init + [s[|s| - 1]];
    }
  }

  predicate AllAtMost(s: seq<Block>, n: nat) {
    forall k :: 0 <= k < |s| ==> s[k].idx <= n
  }

  lemma {:induction false} InsertStaysBelow(s: seq<Block>, x: Block, n: nat)
    requires AllAtMost(s, n) && x.idx <= n
    ensures AllAtMost(Insert(s, x), n)
    decreases |s|
  {
    if s != [] && s[|s| - 1].idx > x.idx {
      InsertStaysBelow(s[..|s| - 1], x, n);
    }
  }

  lemma {:induction false} InsertKeepsOrder(s: seq<Block>, x: Block)
    requires IsOrdered(s)
    ensures IsOrdered(Insert(s, x))
    decreases |s|
  {
    if s != [] && s[|s| - 1].idx > x.idx {
      InsertKeepsOrder(s[..|s| - 1], x);
      InsertStaysBelow(s[..|s| - 1], x, s[|s| - 1].idx);
    }
  }

  /** The result is in order and holds the same blocks. */
  lemma {:induction false} SortedIsOrdered(s: seq<Block>)
    ensures IsOrdered(Sorted(s)) && multiset(Sorted(s)) == multiset(s)
    decreases |s|
  {
    if s != [] {
      SortedIsOrdered(s[..|s| - 1]);
      InsertKeepsOrder(Sorted(s[..|s| - 1]), s[|s| - 1]);
      InsertAdds(Sorted(s[..|s| - 1]), s[|s| - 1]);
      InitLast(s);
    }
  }

  lemma {:induction false} OrderedIsSorted(s: seq<Block>)
    requires IsOrdered(s)
    ensures Sorted(s) == s
    decreases |s|
  {
    if s != [] {
      OrderedIsSorted(s[..|s| - 1]);
    }
  }

  /** Blocks that are numbered in order are left as they are. */
  lemma NumberedStays(blocks: seq<Block>)
    requires forall k :: 0 <= k < |blocks| ==> blocks[k].idx == k
    ensures Renumbered(Sorted(blocks)) == blocks
  {
    OrderedIsSorted(blocks);
    assert forall k :: 0 <= k < |blocks| ==> WithIdx(blocks[k], k) == blocks[k];
  }

  /** The blocks of a run are stored in the order and under the numbers they already have. */
  lemma StoredAsRecorded(calls: seq<Call>, env: Env)
    ensures var blocks := Run(calls, env).stream.blocks; Renumbered(Sorted(blocks)) == blocks
  {
    EventStream.StreamIsFaithful(calls, env);
    var s := Run(calls, env).stream;
    assert EventStream.Numbered(s.blocks, s.order);
    NumberedStays(s.blocks);
  }

  lemma InsertedAt(s: seq<Block>, x: Block, j: nat)
    requires j <= |s|
    requires forall k :: j <= k < |s| ==> s[k].idx > x.idx
    requires j > 0 ==> s[j - 1].idx <= x.idx
    ensures Insert(s, x) == s[..j] + [x] + s[j..]
    decreases |s|
  {
    Whole(s);
    if j < |s| {
      var init, last := s[..|s| - 1], s[|s| - 1];
      InsertedAt(init, x, j);
      TakeTake(s, |s| - 1, j);
      EndOfDrop(s, j);
      Rejoin(s[..j] + [x], init[j..], [last]);
    } else {
      Nothing(s + [x]);
    }
  }

  lemma EndOfDrop(s: seq<Block>, j: nat)
    requires j < |s|
    ensures s[j..] == s[..|s| - 1][j..] + [s[|s| - 1]]
  {
  }

  lemma NextInserted(s: seq<Block>, i: nat)
    requires i < |s|
    ensures Sorted(s[..i + 1]) == Insert(Sorted(s[..i]), s[i])
    ensures Sorted(s[..i]) + s[i..] == Sorted(s[..i]) + ([s[i]] + s[i + 1..])
  {
    assert s[..i + 1][..i] == s[..i];
    assert s[i..] == [s[i]] + s[i + 1..];
  }

  method SortBlocksByIdx(b: array<Block>)
    modifies b
    ensures b[..] == Renumbered(Sorted(old(b[..])))
  {
    SortInPlace(b);
    Renumber(b);
  }

  method SortInPlace(b: array<Block>)
    modifies b
    ensures b[..] == Sorted(old(b[..]))
  {
    ghost var was := b[..];
    var i := 0;
    assert was[..0] == [] && was[0..] == was && [] + was == was;
    while i < b.Length
      invariant 0 <= i <= b.Length
      invariant b[..] == Sorted(was[..i]) + was[i..]
    {
      NextInserted(was, i);
      InsertLast(b, i, Sorted(was[..i]), was[i], was[i + 1..]);
      i := i + 1;
    }
    assert was[..b.Length] == was && was[b.Length..] == [];
  }

  /** Moves the block at `i` down to its place. */
  method InsertLast(b: array<Block>, i: nat, ghost done: seq<Block>, ghost x: Block, ghost rest: seq<Block>)
    requires i < b.Length && |done| == i
    requires b[..] == done + ([x] + rest)
    modifies b
    ensures b[..] == Insert(done, x) + rest
  {
    var j := i;
    assert done[..i] == done && done[i..] == [];
    while j > 0 && b[j - 1].idx > b[j].idx
      invariant 0 <= j <= i
      invariant b[..] == (done[..j] + [x] + done[j..]) + rest
      invariant forall k :: j <= k < i ==> done[k].idx > x.idx
    {
      assert b[..][j - 1] == done[j - 1] && b[..][j] == x;
      b[j - 1], b[j] := b[j], b[j - 1];
      j := j - 1;
    }
    if j > 0 {
      assert b[..][j - 1] == done[j - 1] && b[..][j] == x;
    }
    InsertedAt(done, x, j);
  }

  method Renumber(b: array<Block>)
    modifies b
    ensures b[..] == Renumbered(old(b[..]))
  {
    var i := 0;
    while i < b.Length
      invariant 0 <= i <= b.Length
      invariant forall k :: 0 <= k < i ==> b[k] == WithIdx(old(b[k]), k)
      invariant forall k :: i <= k < b.Length ==> b[k] == old(b[k])
    {
      b[i] := b[i].(idx := i);
      i := i + 1;
    }
  }
}
